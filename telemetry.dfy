/** The decisions of the node's `data` handler: the key rename, the
    optional command-byte filter, and the auto-off timer. */
module Telemetry {
  import opened Types

  /** `dps 20` is the switch the auto-off command turns off. */
  const AUTO_OFF_DPS: int := 20

  /** The payload of the auto-off command, `{dps: 20, set: false}`. */
  function AutoOffCommand(): Payload
  {
    Obj(map["dps" := Num(AUTO_OFF_DPS), "set" := Bool(false)])
  }

  /** The message a data event produces. Its `dps` goes through
      `keyRename` exactly when the configured schema is valid JSON and is
      otherwise passed on unchanged; the message goes through
      `filterCommandByte` exactly when a filter is configured; device
      snapshot, command byte and the other data fields are carried over. */
  function DataMessage(cfg: Config, info: DevInfo, dps: Dps, extra: Value, commandByte: Value): (m: Message)
    ensures m.Filtered? <==> cfg.filterCB != ""
    ensures m.Filtered? ==> m.filterCB == cfg.filterCB && !m.msg.Filtered?
    ensures var r := if m.Filtered? then m.msg else m;
      && r.Reading?
      && r.info == info && r.commandByte == commandByte && r.extra == extra
      && (r.dps == dps <==> !cfg.schemaIsJson)
      && (cfg.schemaIsJson ==> r.dps == KeyRenamed(dps, cfg.renameSchema))
  {
    var renamed := if cfg.schemaIsJson then KeyRenamed(dps, cfg.renameSchema) else dps;
    var msg := Reading(info, commandByte, renamed, extra);
    if cfg.filterCB != "" then Filtered(msg, cfg.filterCB) else msg
  }

  /** The delay of the auto-off timer a data event starts: one per event
      whenever `timerOFF` is non-zero, `timerOFF` seconds in milliseconds. */
  function AutoOffDelay(cfg: Config): (d: Option<int>)
    ensures d.Some? <==> cfg.timerOFF != 0
    ensures d.Some? ==> d.value == cfg.timerOFF * 1000 && d.value != 0
  {
    if cfg.timerOFF != 0 then Some(cfg.timerOFF * 1000) else None
  }
}
