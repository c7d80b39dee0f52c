/** The check before a write (src/engine/reconciler.ts): a target's required fields are never left blank. */
module RequiredFields {
  import opened Canonical
  import opened Strings
  import opened Mapping
  import opened Reconciler

  /** The target requires the native field that the rule writes. */
  predicate Demands(cfg: Config, to: SystemId, r: FieldRule) {
    && to in cfg.required && r in cfg.tables.Rules(to)
    && !r.readOnly && '.' !in r.native && Lower(r.native) in cfg.required[to]
  }

  predicate Filled(values: Fields, native: string) {
    native in values && values[native] != Null && values[native] != Str("")
  }

  /** A run that gets as far as the check is refused there exactly when what would be written leaves a
      required field blank. */
  lemma RequiredExactly(cfg: Config, w: World, source: Record, amb: Ambient)
    requires var located := FindOrCreateLink(cfg, w, source, amb.newCid);
             && located.Found?
             && (source.source in located.link.hashes ==> located.link.hashes[source.source] != HashOf(cfg, source.fields))
    ensures var to, link := Other(source.source), FindOrCreateLink(cfg, w, source, amb.newCid).link;
            var payload := FromCanonical(cfg.tables, to, Winner(cfg, w, source, link).fields);
            Reconcile(cfg, w, source, amb).1 == Refused(MissingRequired)
            <==> exists r :: Demands(cfg, to, r) && !Filled(payload, r.native)
  {
    var to, link := Other(source.source), FindOrCreateLink(cfg, w, source, amb.newCid).link;
    LacksExactly(cfg, to, Winner(cfg, w, source, link).fields);
  }

  lemma LacksExactly(cfg: Config, to: SystemId, fields: Fields)
    ensures LacksRequired(cfg, to, fields) <==>
            exists r :: Demands(cfg, to, r) && !Filled(FromCanonical(cfg.tables, to, fields), r.native)
  {
    var payload := FromCanonical(cfg.tables, to, fields);
    forall r ensures Demands(cfg, to, r) && !Filled(payload, r.native)
                     <==> to in cfg.required && r in cfg.tables.Rules(to) && LeavesBlank(cfg.required[to], payload, r)
    {
    }
  }

  /** After a run that went through, the record it wrote holds something in every required field that
      it writes. */
  lemma RequiredFilled(cfg: Config, w: World, source: Record, amb: Ambient, r: FieldRule)
    requires Reconcile(cfg, w, source, amb).1 == Done && Demands(cfg, Other(source.source), r)
    ensures var before, after := w.Side(Other(source.source)), Reconcile(cfg, w, source, amb).0.Side(Other(source.source));
            && |after.written| == |before.written| + 1
            && var t := after.written[|before.written|];
               t in after.records && Filled(after.records[t].values, r.native)
  {
    var d, to := Decide(cfg, w, source, amb.newCid), Other(source.source);
    var id := WrittenId(cfg, to, d.target, amb).value;
    LacksExactly(cfg, to, d.winner.fields);
    PayloadStored(cfg, w, source, d, id, amb, r.native);
  }

  /** What is sent is what the written record holds afterwards. */
  lemma PayloadStored(cfg: Config, w: World, source: Record, d: Decision, id: Id, amb: Ambient, native: string)
    requires d.Write? && native in FromCanonical(cfg.tables, Other(source.source), d.winner.fields)
    ensures var to, payload := Other(source.source), FromCanonical(cfg.tables, Other(source.source), d.winner.fields);
            var before, after := w.Side(to), AfterLink(cfg, w, source, d, id, amb).Side(to);
            && after.written == before.written + [id] && id in after.records
            && native in after.records[id].values && after.records[id].values[native] == payload[native]
  {
  }
}
