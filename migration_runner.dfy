/**
 * The migration runner: runs the registered migrations in list order, each
 * once, counting successes and failures, and ends with exit code 1 when any
 * failed. Only migration 001 is registered.
 */
module MigrationRunner {
  import opened Wrappers
  import opened Lists
  import opened EventsRoute
  import opened MigrationEventPublic

  datatype Migration = Migration(id: string, name: string)

  /** What `await migration.run()` produced: a result, or an exception. */
  datatype Outcome = Returned(result: MigrationResult) | Crashed

  /** The registry. */
  const Registered: seq<Migration> := [Migration("001", "Add isPublic field to events")]

  /** A migration counts as a success exactly when it returned `success: true`. */
  predicate Succeeded(o: Outcome) {
    o.Returned? && o.result.success
  }

  /** How many of these runs succeeded, and how many failed. */
  function Successes(outcomes: seq<Outcome>): nat {
    |Filter(outcomes, Succeeded)|
  }

  function Failures(outcomes: seq<Outcome>): nat {
    |Filter(outcomes, Not(Succeeded))|
  }

  /** The code `process.exit` receives. */
  function ExitCode(failureCount: nat): (code: nat)
    ensures code == 1 <==> failureCount > 0
    ensures code == 0 <==> failureCount == 0
  {
    if failureCount > 0 then 1 else 0
  }

  /** The summary of a run. */
  datatype Summary = Summary(ran: seq<string>, successCount: nat, failureCount: nat, exitCode: nat)

  /**
   * `runMigrations()`, where `outcomes[i]` is what running `migrations[i]`
   * produced.
   */
  method RunMigrations(migrations: seq<Migration>, outcomes: seq<Outcome>) returns (s: Summary)
    requires |outcomes| == |migrations|
    ensures |s.ran| == |migrations| && forall i :: 0 <= i < |migrations| ==> s.ran[i] == migrations[i].id
    ensures s.successCount == |Filter(outcomes, Succeeded)|
    ensures s.failureCount == |Filter(outcomes, Not(Succeeded))|
    ensures s.successCount + s.failureCount == |migrations|
    ensures s.exitCode == ExitCode(s.failureCount)
  {
    var successCount: nat := 0;
    var failureCount: nat := 0;
    var ran: seq<string> := [];
    var i := 0;
    while i < |migrations|
      invariant 0 <= i <= |migrations|
      invariant |ran| == i && forall j :: 0 <= j < i ==> ran[j] == migrations[j].id
      invariant successCount == Successes(outcomes[..i])
      invariant failureCount == Failures(outcomes[..i])
    {
      ran := ran + [migrations[i].id];
      CountsSnoc(outcomes, i);
      match outcomes[i] {
        case Returned(result) =>
          if result.success {
            assert Succeeded(outcomes[i]);
            successCount := successCount + 1;
          } else {
            assert !Succeeded(outcomes[i]);
            failureCount := failureCount + 1;
          }
        case Crashed =>
          assert !Succeeded(outcomes[i]);
          failureCount := failureCount + 1;
      }
      i := i + 1;
    }
    assert outcomes[..i] == outcomes;
    FilterPartition(outcomes, Succeeded);
    s := Summary(ran, successCount, failureCount, ExitCode(failureCount));
  }

  /** The two counts over a longer prefix. */
  lemma CountsSnoc(outcomes: seq<Outcome>, i: nat)
    requires i < |outcomes|
    ensures Successes(outcomes[..i + 1]) == Successes(outcomes[..i]) + if Succeeded(outcomes[i]) then 1 else 0
    ensures Failures(outcomes[..i + 1]) == Failures(outcomes[..i]) + if Succeeded(outcomes[i]) then 0 else 1
  {
    assert outcomes[..i + 1] == outcomes[..i] + [outcomes[i]];
    FilterConcat(outcomes[..i], [outcomes[i]], Succeeded);
    FilterConcat(outcomes[..i], [outcomes[i]], Not(Succeeded));
  }

  /** The runner over the registry: migration 001 against the event collection. */
  method RunRegistered(store: EventStore, conn: Connection) returns (s: Summary)
    requires store.Valid()
    modifies store
    ensures store.Valid() && store.nextId == old(store.nextId)
    ensures conn.Connected? && CountLacking(old(store.docs)) > 0 ==> store.docs == Backfill(old(store.docs))
    ensures !(conn.Connected? && CountLacking(old(store.docs)) > 0) ==> store.docs == old(store.docs)
    ensures s.ran == ["001"]
    ensures s.successCount + s.failureCount == 1
    ensures s.exitCode == 0 <==> conn.Connected?
  {
    var result := AddEventPublicField(store, conn);
    s := RunMigrations(Registered, [Returned(result)]);
    assert s.successCount == 1 <==> result.success;
  }
}
