/** ActivationService: one transaction per transition, an
    exception restores the database, and the audit follows the commit. */
module ActivationService {
  import opened Basics
  import opened Text
  import opened Tables
  import opened Readiness
  import opened Transitions
  import opened Activation

  /** The embedding provider's public identity and readiness. */
  datatype Provider = Provider(document: DocumentConfig, queryInstruction: string, descriptor: Descriptor, ready: bool)

  /** A committed transition stays committed even when its audit record is lost. */
  datatype ServiceOutcome = Committed(transition: Transition, audited: bool) | Refused(error: ActivationError)

  predicate IsAlphanumeric(c: char) {
    'A' <= c <= 'Z' || 'a' <= c <= 'z' || '0' <= c <= '9'
  }

  /** [A-Za-z0-9][A-Za-z0-9._@-]{0,127} */
  predicate SafeIdentifier(text: string) {
    && 1 <= |text| <= 128 && IsAlphanumeric(text[0])
    && forall i :: 0 <= i < |text| ==> IsAlphanumeric(text[i]) || text[i] == '.' || text[i] == '_' || text[i] == '@' || text[i] == '-'
  }

  lemma SafeIsNotBlank(text: string)
    requires SafeIdentifier(text)
    ensures !Blank(text)
  {
    assert !IsSpace(text[0]);
  }

  /** _assert_rollback_readiness: the target's stored identity is canonical and the
      running provider is exactly the one it was built with. */
  predicate Servable(snapshot: Snapshot, hash: ConfigHash, provider: Provider) {
    && Sha256OfSnapshot(snapshot) == hash
    && provider.document == snapshot.document && provider.queryInstruction == snapshot.queryInstruction
    && provider.descriptor == provider.document.descriptor
    && provider.ready
  }

  /** The rollback target of a source can be served: its configuration row's hash is that
      of its snapshot, and the provider is ready, runs the snapshot's document
      configuration and query instruction, and reports the configured model. */
  ghost predicate TargetServable(db: Database, source: Uuid, provider: Provider) {
    SlotOf(db, source, Previous).Some?
    && var run := SlotOf(db, source, Previous).value;
       db.runs[run].config in db.configs
       && var config := db.configs[db.runs[run].config];
          && config.hash == Sha256OfSnapshot(config.snapshot)
          && provider.ready && provider.document == config.snapshot.document
          && provider.queryInstruction == config.snapshot.queryInstruction
          && provider.descriptor == config.snapshot.document.descriptor
  }

  /** The transition says from which run and configuration to which. */
  ghost predicate ReportsRollback(db: Database, source: Uuid, now: Time, key: string, report: Transition) {
    match report
    case Transition(action, occurredAt, sourceKey, from, to, fromConfig, toConfig) =>
      && action == Action.Rollback && occurredAt == now && sourceKey == key
      && from.Some? && from == SlotOf(db, source, Active) && Some(to) == SlotOf(db, source, Previous)
      && from.value in db.runs && db.runs[from.value].config in db.configs && fromConfig == Some(ConfigOf(db, from.value))
      && to in db.runs && db.runs[to].config in db.configs && toConfig == ConfigOf(db, to)
  }

  /** ActivationService.activate */
  method Activate(session: Session, key: string, run: Uuid, actor: string, now: Time, locked: bool, auditWorks: bool)
    returns (outcome: ServiceOutcome, ghost source: Uuid)
    requires session.Sound()
    modifies session
    ensures session.Sound()
    ensures outcome.Refused? ==> session.db == old(session.db)
    ensures outcome.Refused? ==>
              !SafeIdentifier(key) || !SafeIdentifier(actor) || !locked || forall s :: IsSource(old(session.db), key, s) ==> !MayActivate(old(session.db), s, run)
    ensures outcome.Committed? ==> SafeIdentifier(key) && SafeIdentifier(actor) && outcome.audited == auditWorks
    ensures outcome.Committed? ==> IsSource(old(session.db), key, source) && MayActivate(old(session.db), source, run)
    ensures outcome.Committed? ==> session.db == Activated(old(session.db), source, run, now)
    ensures outcome.Committed? ==> run in old(session.db.runs) && old(session.db.runs)[run].config in old(session.db.configs)
    ensures outcome.Committed? ==> ReportsActivation(old(session.db), source, run, now, key, outcome.transition)
  {
    hide Schema;
    source := Uuid(0);
    if !SafeIdentifier(key) || !SafeIdentifier(actor) { return Refused(BlankKey), source; }
    SafeIsNotBlank(key);
    var repository := new Repository(session);
    var result;
    result, source := repository.Activate(key, run, now, locked);
    if result.Err? { return Refused(result.error), source; }
    return Committed(result.value, auditWorks), source;
  }

  /** ActivationService.rollback: the candidate prepared under the lock is never stale,
      so the transition commits exactly when the target can be prepared and served. */
  method Rollback(session: Session, key: string, actor: string, now: Time, locked: bool, provider: Provider, auditWorks: bool)
    returns (outcome: ServiceOutcome, ghost source: Uuid)
    requires session.Sound()
    modifies session
    ensures session.Sound()
    ensures outcome.Refused? ==> session.db == old(session.db) && session.flushed == old(session.flushed)
    ensures outcome.Refused? ==>
              || !SafeIdentifier(key) || !SafeIdentifier(actor) || !locked
              || forall s :: IsSource(old(session.db), key, s) ==> !(Preparable(old(session.db), s) && TargetServable(old(session.db), s, provider))
    ensures outcome.Committed? ==> SafeIdentifier(key) && SafeIdentifier(actor) && locked && outcome.audited == auditWorks
    ensures outcome.Committed? ==>
              IsSource(old(session.db), key, source) && Preparable(old(session.db), source) && TargetServable(old(session.db), source, provider)
    ensures outcome.Committed? ==>
              session.db == RolledBack(old(session.db), source, SlotOf(old(session.db), source, Active).value,
                                       SlotOf(old(session.db), source, Previous).value, now)
    ensures outcome.Committed? ==> ReportsRollback(old(session.db), source, now, key, outcome.transition)
  {
    hide Schema, RunReady;
    source := Uuid(0);
    if !SafeIdentifier(key) || !SafeIdentifier(actor) { return Refused(BlankKey), source; }
    SafeIsNotBlank(key);
    ghost var db := session.db;
    var repository := new Repository(session);
    var prepared;
    prepared, source := repository.PrepareRollback(key, locked);
    if prepared.Err? { return Refused(prepared.error), source; }
    var candidate := prepared.value;
    SoleSource(db, key, source);
    if !Servable(candidate.snapshot, candidate.targetConfig, provider) { return Refused(NotServable), source; }
    assert Current(db, source, candidate);
    var result;
    ghost var again;
    result, again := repository.Rollback(candidate, now);
    return Committed(result.value, auditWorks), source;
  }
}
