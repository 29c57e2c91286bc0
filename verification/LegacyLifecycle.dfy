/** The check migration 0002 makes on rows written before the slots were unique. */
module LegacyLifecycle {
  import opened Basics
  import opened Tables
  import opened Lifecycle

  datatype Violation =
    | MultipleActive | MultiplePrevious | ActiveWithoutPointer | PointerNotActive | PointerMissing
    | PreviousWithoutPointer | PointerDisagrees | PointerUnresolved | ForeignPointer

  function WithStatus(runs: map<Uuid, Run>, source: Uuid, status: Status): set<Uuid> {
    set id | id in runs && runs[id].source == source && runs[id].status == status
  }

  /** The CASE of the migration: the first violated rule for one source. */
  function FirstViolation(runs: map<Uuid, Run>, source: Uuid, pointer: Option<Uuid>): (violation: Option<Violation>) {
    var active, previous := WithStatus(runs, source, Active), WithStatus(runs, source, Previous);
    if |active| > 1 then Some(MultipleActive)
    else if |previous| > 1 then Some(MultiplePrevious)
    else if pointer.None? && |active| > 0 then Some(ActiveWithoutPointer)
    else if pointer.Some? && pointer.value in runs && runs[pointer.value].status != Active then Some(PointerNotActive)
    else if pointer.Some? && pointer.value !in runs then Some(PointerMissing)
    else if pointer.None? && |previous| > 0 then Some(PreviousWithoutPointer)
    else if |active| == 1 && pointer.Some? && pointer.value !in active then Some(PointerDisagrees)
    else if pointer.Some? && |active| != 1 then Some(PointerUnresolved)
    else if pointer.Some? && pointer.value in runs && runs[pointer.value].source != source then Some(ForeignPointer)
    else None
  }

  /** What the lifecycle demands of one source. */
  ghost predicate SourceConsistent(runs: map<Uuid, Run>, source: Uuid, pointer: Option<Uuid>) {
    && (forall id :: id in WithStatus(runs, source, Active) ==> pointer == Some(id))
    && (pointer.Some? ==> pointer.value in WithStatus(runs, source, Active))
    && (WithStatus(runs, source, Previous) != {} ==> pointer.Some?)
    && (forall i, j :: i in WithStatus(runs, source, Previous) && j in WithStatus(runs, source, Previous) ==> i == j)
  }

  lemma AtMostOne<T>(s: set<T>)
    ensures |s| <= 1 <==> forall i, j :: i in s && j in s ==> i == j
  {
    if x :| x in s {
      if forall i, j :: i in s && j in s ==> i == j { assert s == {x}; }
      if |s| <= 1 {
        assert |s - {x}| == 0;
        forall i | i in s ensures i == x { assert i !in s - {x}; }
      }
    }
  }

  /** The migration accepts a source exactly when its rows are consistent. */
  lemma ViolationMeans(runs: map<Uuid, Run>, source: Uuid, pointer: Option<Uuid>)
    ensures FirstViolation(runs, source, pointer).None? <==> SourceConsistent(runs, source, pointer)
  {
    AtMostOne(WithStatus(runs, source, Active));
    AtMostOne(WithStatus(runs, source, Previous));
    if pointer.Some? && |WithStatus(runs, source, Active)| == 1 && SourceConsistent(runs, source, pointer) {
      assert pointer.value in WithStatus(runs, source, Active);
    }
  }

  /** A run of the source has the status. */
  ghost predicate Has(runs: map<Uuid, Run>, source: Uuid, status: Status, id: Uuid) {
    id in runs && runs[id].source == source && runs[id].status == status
  }

  /** The message names a rule the source's rows break. */
  lemma ViolationNames(runs: map<Uuid, Run>, source: Uuid, pointer: Option<Uuid>)
    ensures match FirstViolation(runs, source, pointer)
            case None => true
            case Some(MultipleActive) => exists i, j :: i != j && Has(runs, source, Active, i) && Has(runs, source, Active, j)
            case Some(MultiplePrevious) => exists i, j :: i != j && Has(runs, source, Previous, i) && Has(runs, source, Previous, j)
            case Some(ActiveWithoutPointer) => pointer.None? && exists i :: Has(runs, source, Active, i)
            case Some(PointerNotActive) => pointer.Some? && pointer.value in runs && runs[pointer.value].status != Active
            case Some(PointerMissing) => pointer.Some? && pointer.value !in runs
            case Some(PreviousWithoutPointer) => pointer.None? && exists i :: Has(runs, source, Previous, i)
            case Some(PointerDisagrees) => pointer.Some? && exists i :: Has(runs, source, Active, i) && pointer.value != i
            case Some(PointerUnresolved) => pointer.Some? && forall i :: !Has(runs, source, Active, i)
            case Some(ForeignPointer) => pointer.Some? && pointer.value in runs && runs[pointer.value].source != source
  {
    Members(runs, source, Active);
    Members(runs, source, Previous);
    hide Has, WithStatus;
  }

  lemma Members(runs: map<Uuid, Run>, source: Uuid, status: Status)
    ensures var s := WithStatus(runs, source, status);
            && (|s| > 0 ==> exists i :: i in s && Has(runs, source, status, i))
            && (|s| > 1 ==> exists i, j :: i != j && Has(runs, source, status, i) && Has(runs, source, status, j))
            && (|s| == 0 ==> forall i :: !Has(runs, source, status, i))
  {
    var s := WithStatus(runs, source, status);
    AtMostOne(s);
    assert forall i :: i in s <==> Has(runs, source, status, i);
    if |s| > 0 { var i :| i in s; }
  }

  /** The migration accepts all rows exactly when they satisfy the lifecycle invariant and
      both unique slots, whose indexes it then creates. */
  lemma MigrationAcceptsLifecycle(sources: map<Uuid, Source>, runs: map<Uuid, Run>)
    requires forall id :: id in runs ==> runs[id].source in sources
    ensures (forall s :: s in sources ==> FirstViolation(runs, s, sources[s].active).None?)
       <==> Consistent(sources, runs) && OneSlot(runs, Active) && OneSlot(runs, Previous)
  {
    hide FirstViolation;
    forall s | s in sources
      ensures FirstViolation(runs, s, sources[s].active).None? <==> SourceConsistent(runs, s, sources[s].active)
    {
      ViolationMeans(runs, s, sources[s].active);
    }
    if forall s :: s in sources ==> SourceConsistent(runs, s, sources[s].active) {
      AllSourcesConsistent(sources, runs);
    }
    if Consistent(sources, runs) && OneSlot(runs, Previous) {
      forall s | s in sources ensures SourceConsistent(runs, s, sources[s].active) {
        forall i, j | i in WithStatus(runs, s, Previous) && j in WithStatus(runs, s, Previous) ensures i == j {
          assert SameSlot(runs[i], runs[j], Previous);
        }
      }
    }
  }

  lemma AllSourcesConsistent(sources: map<Uuid, Source>, runs: map<Uuid, Run>)
    requires forall id :: id in runs ==> runs[id].source in sources
    requires forall s :: s in sources ==> SourceConsistent(runs, s, sources[s].active)
    ensures Consistent(sources, runs) && OneSlot(runs, Active) && OneSlot(runs, Previous)
  {
    forall id | id in runs
      ensures runs[id].status == Active ==> sources[runs[id].source].active == Some(id)
      ensures runs[id].status == Previous ==> sources[runs[id].source].active.Some?
    {
      assert SourceConsistent(runs, runs[id].source, sources[runs[id].source].active);
      if runs[id].status == Active { assert id in WithStatus(runs, runs[id].source, Active); }
      if runs[id].status == Previous { assert id in WithStatus(runs, runs[id].source, Previous); }
    }
    forall i, j | i in runs && j in runs && SameSlot(runs[i], runs[j], Previous) ensures i == j {
      assert i in WithStatus(runs, runs[i].source, Previous) && j in WithStatus(runs, runs[i].source, Previous);
    }
  }
}
