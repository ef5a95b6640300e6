/**
 * The relay server's in-memory question list: the sheet sync step that appends
 * rows the list does not have yet, the approve / decline / project transitions
 * addressed by id, and the pending / approved projection broadcast to clients.
 * The spreadsheet fetch becomes a sequence of rows given to the sync step, and
 * each broadcast becomes a returned snapshot.
 */
module QuestionStore {
  import opened Wrappers

  datatype Status = Pending | Approved | Rejected | Projected

  /** One question record as the server keeps it. */
  datatype Question = Question(id: int, name: string, question: string, status: Status)

  /** One spreadsheet row: its Name and Question cells. */
  datatype Row = Row(name: string, question: string)

  /** The payload of a `refresh_data` broadcast. */
  datatype Lists = Lists(pending: seq<Question>, approved: seq<Question>)

  /** The ids of `qs` count up from `base`, one per position. */
  predicate IdsFrom(qs: seq<Question>, base: int)
  {
    forall i :: 0 <= i < |qs| ==> qs[i].id == base + i
  }

  /** The store invariant: every record's id is its position in the list. */
  predicate IdsArePositions(qs: seq<Question>)
  {
    IdsFrom(qs, 0)
  }

  /** Ids strictly increase along the list. */
  predicate IdsIncreasing(qs: seq<Question>)
  {
    forall i, j :: 0 <= i < j < |qs| ==> qs[i].id < qs[j].id
  }

  /** `localQuestions.find(x => x.id === id)`, as the position it finds. */
  function Find(qs: seq<Question>, id: int): (r: Option<nat>)
    ensures r.Some? ==> r.value < |qs| && qs[r.value].id == id
    ensures r.Some? ==> forall j :: 0 <= j < r.value ==> qs[j].id != id
    ensures r.None? <==> forall j :: 0 <= j < |qs| ==> qs[j].id != id
  {
    if |qs| == 0 then None
    else if qs[0].id == id then Some(0)
    else match Find(qs[1..], id)
      case None => None
      case Some(k) => Some(k + 1)
  }

  /** In a list whose ids count up from `base`, an id is found exactly at its offset. */
  lemma FindInStore(qs: seq<Question>, base: int, id: int)
    requires IdsFrom(qs, base)
    ensures Find(qs, id) == if base <= id < base + |qs| then Some(id - base) else None
  {
    if base <= id < base + |qs| {
      assert qs[id - base].id == id;
    }
  }

  /** Find looks at ids only: lists with the same ids find the same position. */
  lemma FindDependsOnlyOnIds(qs1: seq<Question>, qs2: seq<Question>, id: int)
    requires |qs1| == |qs2|
    requires forall i :: 0 <= i < |qs1| ==> qs1[i].id == qs2[i].id
    ensures Find(qs1, id) == Find(qs2, id)
  {
  }

  /** `localQuestions.filter(q => q.status === status)`. */
  function Filter(qs: seq<Question>, status: Status): (r: seq<Question>)
    ensures |r| <= |qs|
    ensures forall q :: q in r <==> q in qs && q.status == status
  {
    if |qs| == 0 then []
    else (if qs[0].status == status then [qs[0]] else []) + Filter(qs[1..], status)
  }

  /** Filtering distributes over concatenation, so it never reorders records. */
  lemma {:induction false} FilterAppend(a: seq<Question>, b: seq<Question>, status: Status)
    ensures Filter(a + b, status) == Filter(a, status) + Filter(b, status)
  {
    if |a| == 0 {
      assert a + b == b;
    } else {
      assert (a + b)[1..] == a[1..] + b;
      FilterAppend(a[1..], b, status);
    }
  }

  /** A filtered list keeps the id order of the list it came from. */
  lemma {:induction false} FilterKeepsOrder(qs: seq<Question>, status: Status)
    requires IdsIncreasing(qs)
    ensures IdsIncreasing(Filter(qs, status))
  {
    if |qs| > 0 {
      var rest := Filter(qs[1..], status);
      FilterKeepsOrder(qs[1..], status);
      forall q | q in rest
        ensures qs[0].id < q.id
      {
        var j :| 0 <= j < |qs[1..]| && qs[1..][j] == q;
        assert qs[j + 1] == q;
      }
    }
  }

  /** Ids equal to positions increase along the list. */
  lemma PositionsIncrease(qs: seq<Question>)
    requires IdsArePositions(qs)
    ensures IdsIncreasing(qs)
  {
  }

  /**
   * `broadcastLists`: the pending and approved records, each list in store
   * order; rejected and projected records are in neither.
   */
  function Broadcast(qs: seq<Question>): (r: Lists)
    ensures forall q :: q in r.pending <==> q in qs && q.status == Pending
    ensures forall q :: q in r.approved <==> q in qs && q.status == Approved
    ensures forall q :: !(q in r.pending && q in r.approved)
    ensures forall q :: q in qs && (q.status == Rejected || q.status == Projected) ==>
              q !in r.pending && q !in r.approved
    ensures IdsArePositions(qs) ==> IdsIncreasing(r.pending) && IdsIncreasing(r.approved)
  {
    assert IdsArePositions(qs) ==>
             IdsIncreasing(Filter(qs, Pending)) && IdsIncreasing(Filter(qs, Approved)) by {
      if IdsArePositions(qs) {
        PositionsIncrease(qs);
        FilterKeepsOrder(qs, Pending);
        FilterKeepsOrder(qs, Approved);
      }
    }
    Lists(Filter(qs, Pending), Filter(qs, Approved))
  }

  /** The record the sync step makes out of sheet row `i`. */
  function NewRecord(rows: seq<Row>, i: nat): (q: Question)
    requires i < |rows|
    ensures q.id == i && q.status == Pending
    ensures q.name == rows[i].name && q.question == rows[i].question
  {
    Question(i, rows[i].name, rows[i].question, Pending)
  }

  /**
   * The list after one sync against the sheet's rows: when the sheet has more
   * rows than the list, the missing rows are appended as new pending records;
   * otherwise the list stays as it is.
   */
  function Sync(qs: seq<Question>, rows: seq<Row>): (r: seq<Question>)
    ensures |rows| > |qs| ==> |r| == |rows| && r[..|qs|] == qs
    ensures |rows| > |qs| ==> forall i :: |qs| <= i < |rows| ==> r[i] == NewRecord(rows, i)
    ensures |rows| <= |qs| ==> r == qs
    ensures IdsArePositions(qs) ==> IdsArePositions(r)
  {
    if |rows| > |qs| then
      qs + seq(|rows| - |qs|, k requires 0 <= k < |rows| - |qs| => NewRecord(rows, |qs| + k))
    else qs
  }

  /** A second sync against the same rows changes nothing. */
  lemma SyncIdempotent(qs: seq<Question>, rows: seq<Row>)
    ensures Sync(Sync(qs, rows), rows) == Sync(qs, rows)
  {
  }

  /**
   * Sync reads only the rows beyond the list's length: edits to rows that are
   * already in the list are never picked up.
   */
  lemma SyncIgnoresKnownRows(qs: seq<Question>, rows1: seq<Row>, rows2: seq<Row>)
    requires |rows1| == |rows2|
    requires forall i :: |qs| <= i < |rows1| ==> rows1[i] == rows2[i]
    ensures Sync(qs, rows1) == Sync(qs, rows2)
  {
    if |rows1| > |qs| {
      var r1, r2 := Sync(qs, rows1), Sync(qs, rows2);
      assert forall i :: 0 <= i < |r1| ==> r1[i] == r2[i] by {
        forall i | 0 <= i < |r1| ensures r1[i] == r2[i] {
          if i < |qs| {
            assert r1[i] == r1[..|qs|][i] && r2[i] == r2[..|qs|][i];
          }
        }
      }
    }
  }

  /**
   * The list after a status transition: the record `find` reaches by id gets
   * the new status; when no record has the id the list is unchanged.
   */
  function WithStatus(qs: seq<Question>, id: int, status: Status): (r: seq<Question>)
    ensures |r| == |qs|
    ensures forall i :: 0 <= i < |qs| ==> r[i].id == qs[i].id
    ensures Find(qs, id).None? ==> r == qs
    ensures Find(qs, id).Some? ==>
              var k := Find(qs, id).value;
              && r[k] == qs[k].(status := status)
              && forall j :: 0 <= j < |qs| && j != k ==> r[j] == qs[j]
  {
    match Find(qs, id)
    case None => qs
    case Some(k) => qs[k := qs[k].(status := status)]
  }

  /**
   * Under the store invariant a transition on a present id sets exactly that
   * record's status, whatever it was, and keeps the invariant; any other id
   * leaves the list unchanged.
   */
  lemma WithStatusInStore(qs: seq<Question>, id: int, status: Status)
    requires IdsArePositions(qs)
    ensures IdsArePositions(WithStatus(qs, id, status))
    ensures 0 <= id < |qs| ==>
              && WithStatus(qs, id, status)[id] == qs[id].(status := status)
              && forall j :: 0 <= j < |qs| && j != id ==> WithStatus(qs, id, status)[j] == qs[j]
    ensures !(0 <= id < |qs|) ==> WithStatus(qs, id, status) == qs
  {
    FindInStore(qs, 0, id);
  }

  /** Transitions ignore the prior status: the last one applied to an id wins. */
  lemma LastTransitionWins(qs: seq<Question>, id: int, first: Status, second: Status)
    ensures WithStatus(WithStatus(qs, id, first), id, second) == WithStatus(qs, id, second)
  {
    FindDependsOnlyOnIds(WithStatus(qs, id, first), qs, id);
  }

  /** The module-level `localQuestions` list and the handlers that change it. */
  class Store {
    var questions: seq<Question>

    ghost predicate Valid()
      reads this
    {
      IdsArePositions(questions)
    }

    constructor ()
      ensures Valid() && questions == []
    {
      questions := [];
    }

    /** The lists broadcast to every connected client when a client connects. */
    function Snapshot(): (r: Lists)
      reads this
      ensures forall q :: q in r.pending <==> q in questions && q.status == Pending
      ensures forall q :: q in r.approved <==> q in questions && q.status == Approved
    {
      Broadcast(questions)
    }

    /**
     * `checkSheet` after the fetch: append one pending record per row beyond
     * the current length, then broadcast; with no new rows, do nothing.
     */
    method CheckSheet(rows: seq<Row>) returns (snapshot: Option<Lists>)
      requires Valid()
      modifies this
      ensures Valid()
      ensures questions == Sync(old(questions), rows)
      ensures |rows| > |old(questions)| ==> snapshot == Some(Broadcast(questions))
      ensures |rows| <= |old(questions)| ==> snapshot == None && questions == old(questions)
    {
      snapshot := None;
      if |rows| > |questions| {
        var known := |questions|;
        for i := known to |rows|
          invariant |questions| == i
          invariant questions[..known] == old(questions)
          invariant forall j :: known <= j < i ==> questions[j] == NewRecord(rows, j)
        {
          questions := questions + [Question(i, rows[i].name, rows[i].question, Pending)];
        }
        assert questions == Sync(old(questions), rows);
        snapshot := Some(Broadcast(questions));
      }
    }

    /**
     * Find the record by id and overwrite its status in place; the record
     * found is returned as it was before the write.
     */
    method SetStatus(id: int, status: Status) returns (found: Option<Question>)
      requires Valid()
      modifies this
      ensures Valid()
      ensures questions == WithStatus(old(questions), id, status)
      ensures 0 <= id < |old(questions)| ==> found == Some(old(questions)[id])
      ensures !(0 <= id < |old(questions)|) ==> found == None
    {
      FindInStore(questions, 0, id);
      WithStatusInStore(questions, id, status);
      var k := Find(questions, id);
      if k.Some? {
        found := Some(questions[k.value]);
        questions := questions[k.value := questions[k.value].(status := status)];
      } else {
        found := None;
      }
    }

    /** `admin_approve`. */
    method Approve(id: int) returns (snapshot: Option<Lists>)
      requires Valid()
      modifies this
      ensures Valid()
      ensures questions == WithStatus(old(questions), id, Approved)
      ensures 0 <= id < |old(questions)| ==>
                questions[id].status == Approved && snapshot == Some(Broadcast(questions))
      ensures !(0 <= id < |old(questions)|) ==> questions == old(questions) && snapshot == None
    {
      var found := SetStatus(id, Approved);
      snapshot := if found.Some? then Some(Broadcast(questions)) else None;
    }

    /** `admin_decline`. */
    method Decline(id: int) returns (snapshot: Option<Lists>)
      requires Valid()
      modifies this
      ensures Valid()
      ensures questions == WithStatus(old(questions), id, Rejected)
      ensures 0 <= id < |old(questions)| ==>
                questions[id].status == Rejected && snapshot == Some(Broadcast(questions))
      ensures !(0 <= id < |old(questions)|) ==> questions == old(questions) && snapshot == None
    {
      var found := SetStatus(id, Rejected);
      snapshot := if found.Some? then Some(Broadcast(questions)) else None;
    }

    /**
     * `admin_project`: the record goes out on `project_live` as it was before
     * the write, then its status becomes Projected and the lists are broadcast.
     */
    method Project(id: int) returns (live: Option<Question>, snapshot: Option<Lists>)
      requires Valid()
      modifies this
      ensures Valid()
      ensures questions == WithStatus(old(questions), id, Projected)
      ensures 0 <= id < |old(questions)| ==>
                && live == Some(old(questions)[id])
                && questions[id].status == Projected
                && snapshot == Some(Broadcast(questions))
      ensures !(0 <= id < |old(questions)|) ==>
                questions == old(questions) && live == None && snapshot == None
    {
      live := SetStatus(id, Projected);
      snapshot := if live.Some? then Some(Broadcast(questions)) else None;
    }
  }
}
