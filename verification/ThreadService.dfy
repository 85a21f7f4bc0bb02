/** Cancelling the threads of a conversation, one conditional update per listed thread, while
    other goroutines go on writing thread rows. */
module ThreadService {
  import opened Wrappers
  import opened EventHub
  import opened DispatchRegistry
  import FanIn

  datatype ThreadRow = ThreadRow(conv: string, status: ThreadStatus)

  type Rows = map<ThreadId, ThreadRow>

  predicate IsOpen(t: ThreadRow, conv: string) {
    t.conv == conv && !FanIn.IsFinal(t.status)
  }

  /** What the query for the threads to cancel returns. */
  ghost predicate ListsOpen(listing: seq<ThreadId>, rows: Rows, conv: string) {
    NoDuplicates(listing) && forall t :: t in listing <==> t in rows && IsOpen(rows[t], conv)
  }

  /** The rows of one conversation, as the fan-in machine sees them. */
  function Statuses(rows: Rows, conv: string): map<ThreadId, ThreadStatus> {
    map t | t in rows && rows[t].conv == conv :: rows[t].status
  }

  /** One update `WHERE id = ? AND status NOT IN ?`. */
  function Updated(rows: Rows, t: ThreadId): Rows {
    if t in rows then rows[t := rows[t].(status := FanIn.CancelledStatus(rows[t].status))] else rows
  }

  /** What any other goroutine may do to the rows: insert some, and write statuses, but never take
      one out of the terminal states. */
  ghost predicate Evolves(rows: Rows, after: Rows) {
    forall t :: t in rows ==>
      && t in after && after[t].conv == rows[t].conv
      && (FanIn.IsFinal(rows[t].status) ==> FanIn.IsFinal(after[t].status))
  }

  /** The rows after the first `n` updates, each preceded by what others wrote meanwhile. */
  function Swept(rows: Rows, listing: seq<ThreadId>, others: (nat, Rows) -> Rows, n: nat): Rows
    requires n <= |listing|
  {
    if n == 0 then rows else Updated(others(n - 1, Swept(rows, listing, others, n - 1)), listing[n - 1])
  }

  /** Each update is the cancel step of the fan-in machine on its own conversation, and leaves the
      other conversations alone. */
  lemma UpdateIsCancelStep(rows: Rows, t: ThreadId, conv: string, d: FanIn.Table)
    requires t in rows && rows[t].conv == conv && d.threads == Statuses(rows, conv)
    ensures FanIn.TableNext(d, FanIn.CancelElsewhere(t)) == Some(d.(threads := Statuses(Updated(rows, t), conv)))
    ensures forall c :: c != conv ==> Statuses(Updated(rows, t), c) == Statuses(rows, c)
    ensures Evolves(rows, Updated(rows, t))
  {
    assert Statuses(Updated(rows, t), conv) == FanIn.CancelRow(Statuses(rows, conv), t);
  }

  /** Whatever others write in between, after `n` updates the first `n` listed threads are terminal,
      and the loop itself takes no thread out of the terminal states. */
  lemma {:induction false} SweepCancels(rows: Rows, listing: seq<ThreadId>, others: (nat, Rows) -> Rows, n: nat)
    requires n <= |listing| && forall t :: t in listing ==> t in rows
    requires forall k: nat, r: Rows :: Evolves(r, others(k, r))
    ensures var after := Swept(rows, listing, others, n);
            && Evolves(rows, after)
            && (forall t :: t in listing[..n] ==> t in after && FanIn.IsFinal(after[t].status))
  {
    if n > 0 {
      SweepCancels(rows, listing, others, n - 1);
      var before := Swept(rows, listing, others, n - 1);
      var between := others(n - 1, before);
      assert Evolves(before, between);
      SweepStep(rows, before, between, listing[n - 1]);
      assert listing[..n] == listing[..n - 1] + [listing[n - 1]];
    }
  }

  lemma SweepStep(rows: Rows, before: Rows, between: Rows, t: ThreadId)
    requires Evolves(rows, before) && Evolves(before, between) && t in rows
    ensures Evolves(rows, Updated(between, t)) && Evolves(before, Updated(between, t))
    ensures t in Updated(between, t) && FanIn.IsFinal(Updated(between, t)[t].status)
  {
  }

  /** With nobody writing in between, exactly the first `n` listed threads change, to cancelled. */
  lemma {:induction false} QuietSweep(rows: Rows, listing: seq<ThreadId>, others: (nat, Rows) -> Rows, n: nat)
    requires n <= |listing| && NoDuplicates(listing)
    requires forall t :: t in listing ==> t in rows && !FanIn.IsFinal(rows[t].status)
    requires forall k: nat, r: Rows :: others(k, r) == r
    ensures var after := Swept(rows, listing, others, n);
            && after.Keys == rows.Keys
            && forall t :: t in rows ==> after[t] == if t in listing[..n] then rows[t].(status := Cancelled) else rows[t]
  {
    if n > 0 {
      QuietSweep(rows, listing, others, n - 1);
      assert listing[..n] == listing[..n - 1] + [listing[n - 1]];
    }
  }

  class ThreadTable {
    var rows: Rows

    constructor ()
      ensures rows == map[]
    {
      rows := map[];
    }

    /** `listing` is what the query returned, in any order; `fails` says which update the
        database refuses, and the first refusal stops the loop; `others(k, _)` is what other
        goroutines make of the rows before update `k`. */
    method CancelAllThreads(conv: string, listing: seq<ThreadId>, fails: ThreadId -> bool, others: (nat, Rows) -> Rows)
      returns (done: nat, ok: bool)
      requires ListsOpen(listing, rows, conv)
      modifies this
      ensures done <= |listing| && (ok <==> done == |listing|)
      ensures ok <==> forall k :: 0 <= k < |listing| ==> !fails(listing[k])
      ensures ok ==> rows == Swept(old(rows), listing, others, |listing|)
      ensures !ok ==> rows == others(done, Swept(old(rows), listing, others, done))
    {
      done := 0;
      while done < |listing|
        invariant done <= |listing|
        invariant forall k :: 0 <= k < done ==> !fails(listing[k])
        invariant rows == Swept(old(rows), listing, others, done)
      {
        rows := others(done, rows);
        if fails(listing[done]) {
          return done, false;
        }
        rows := Updated(rows, listing[done]);
        done := done + 1;
      }
      ok := true;
    }
  }
}
