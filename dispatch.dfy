/**
 * IndexingManager, the batch dispatcher of the change-detection stage: one
 * message per changed work is added to a pending list, and the pending list
 * is sent to the queue in one batch call whenever it reaches ten entries,
 * and once more at the end for what is left.
 */
module Dispatch {
  import opened Results
  import opened Folds
  import Json

  /** The queue's batch call takes at most this many entries. */
  const BatchLimit: nat := 10

  /** One changed work as the source store enumerates it: its row id and its uuid in hex. */
  datatype WorkRef = WorkRef(id: int, uuidHex: string)

  /** One batch entry: `Id` and the JSON `MessageBody`. */
  datatype Message = Message(id: string, body: Json.JsonText)

  /** The queue's failure, raised as OutputError; its message text is not modelled. */
  datatype DispatchError = OutputError

  /** The entry for one work: keyed by its uuid, with a body naming the uuid as a `uuid` identifier. */
  function MessageFor(ref: WorkRef): (m: Message)
    ensures m.id == ref.uuidHex
    ensures Json.Loads(m.body) == Ok(Json.Object(map["type" := "uuid", "identifier" := ref.uuidHex]))
  {
    Message(ref.uuidHex, Json.Dumps(Json.Object(map["type" := "uuid", "identifier" := ref.uuidHex])))
  }

  function MessagesFor(refs: seq<WorkRef>): (r: seq<Message>)
    ensures |r| == |refs|
    ensures forall i :: 0 <= i < |refs| ==> r[i] == MessageFor(refs[i])
  {
    MapAll(refs, MessageFor)
  }

  // ------------------------------------------------------------- the plan

  /** The batches sent so far and the entries still pending. */
  datatype Progress<T> = Progress(flushed: seq<seq<T>>, pending: seq<T>)

  /** The state after adding the first `n` of `s` to pending `p`, sending whenever ten are pending. */
  function Fill<T>(p: seq<T>, s: seq<T>, n: nat): Progress<T>
    requires n <= |s|
  {
    if n == 0 then Progress([], p)
    else
      var prev := Fill(p, s, n - 1);
      var q := prev.pending + [s[n - 1]];
      if |q| == BatchLimit then Progress(prev.flushed + [q], []) else Progress(prev.flushed, q)
  }

  /** Every batch call of one run: the full batches, then the rest if any is left. */
  function Plan<T>(p: seq<T>, s: seq<T>): seq<seq<T>>
  {
    var last := Fill(p, s, |s|);
    last.flushed + (if last.pending == [] then [] else [last.pending])
  }

  function Concat<T>(batches: seq<seq<T>>): seq<T>
  {
    if batches == [] then [] else Concat(batches[..|batches| - 1]) + batches[|batches| - 1]
  }

  lemma ConcatSnoc<T>(a: seq<seq<T>>, b: seq<T>)
    ensures Concat(a + [b]) == Concat(a) + b
  {
    assert (a + [b])[..|a + [b]| - 1] == a;
  }

  /** Nothing is dropped, duplicated or reordered: the batches, joined, then the pending entries, are `p` and then the first `n` new entries. */
  lemma {:induction false} FillCovers<T>(p: seq<T>, s: seq<T>, n: nat)
    requires n <= |s|
    ensures Concat(Fill(p, s, n).flushed) + Fill(p, s, n).pending == p + s[..n]
  {
    if n > 0 {
      FillCovers(p, s, n - 1);
      var prev := Fill(p, s, n - 1);
      var q := prev.pending + [s[n - 1]];
      assert s[..n] == s[..n - 1] + [s[n - 1]];
      calc {
        Concat(prev.flushed) + q;
        (Concat(prev.flushed) + prev.pending) + [s[n - 1]];
        p + s[..n];
      }
      if |q| == BatchLimit {
        ConcatSnoc(prev.flushed, q);
      }
    }
  }

  /** The plan from an empty pending list delivers every message once, in order. */
  lemma PlanDeliversAll<T>(s: seq<T>)
    ensures Concat(Plan([], s)) == s
  {
    var last := Fill([], s, |s|);
    FillCovers([], s, |s|);
    assert s[..|s|] == s;
    if last.pending != [] {
      ConcatSnoc(last.flushed, last.pending);
    } else {
      assert Plan([], s) == last.flushed;
      assert Concat(last.flushed) + last.pending == Concat(last.flushed);
    }
  }

  /** Starting below ten pending, every send carries exactly ten and fewer than ten are left. */
  lemma {:induction false} FullBatches<T>(p: seq<T>, s: seq<T>, n: nat)
    requires |p| < BatchLimit && n <= |s|
    ensures |Fill(p, s, n).pending| < BatchLimit
    ensures forall j :: 0 <= j < |Fill(p, s, n).flushed| ==> |Fill(p, s, n).flushed[j]| == BatchLimit
  {
    if n > 0 {
      FullBatches(p, s, n - 1);
    }
  }

  /** From an empty pending list: n / 10 full batches, then the n % 10 rest. */
  lemma {:induction false} BatchCounts<T>(s: seq<T>, n: nat)
    requires n <= |s|
    ensures |Fill([], s, n).flushed| == n / BatchLimit
    ensures |Fill([], s, n).pending| == n % BatchLimit
  {
    if n > 0 {
      BatchCounts(s, n - 1);
    }
  }

  /** Every batch call sends between one and ten entries. */
  lemma PlanBatchSizes<T>(s: seq<T>)
    ensures forall j :: 0 <= j < |Plan([], s)| ==> 0 < |Plan([], s)[j]| <= BatchLimit
  {
    FullBatches([], s, |s|);
  }

  /** Fifteen changed works: two batch calls, of ten and of five. */
  lemma FifteenWorksTwoSends(refs: seq<WorkRef>)
    requires |refs| == 15
    ensures var plan := Plan([], MessagesFor(refs));
      |plan| == 2 && |plan[0]| == 10 && |plan[1]| == 5 && plan[0] + plan[1] == MessagesFor(refs)
  {
    var s := MessagesFor(refs);
    BatchCounts(s, |s|);
    FullBatches([], s, |s|);
    PlanDeliversAll(s);
    var plan := Plan([], s);
    assert plan == [plan[0]] + [plan[1]];
    ConcatSnoc([plan[0]], plan[1]);
    ConcatSnoc([], plan[0]);
  }

  /** Twenty-three changed works: three batch calls, of ten, ten and three. */
  lemma TwentyThreeWorksThreeSends(refs: seq<WorkRef>)
    requires |refs| == 23
    ensures var plan := Plan([], MessagesFor(refs));
      |plan| == 3 && |plan[0]| == 10 && |plan[1]| == 10 && |plan[2]| == 3
  {
    var s := MessagesFor(refs);
    BatchCounts(s, |s|);
    FullBatches([], s, |s|);
  }

  /** The batches sent after `n` entries are the first batches of the whole run's plan. */
  lemma {:induction false} FillPrefix<T>(p: seq<T>, s: seq<T>, n: nat, m: nat)
    requires n <= m <= |s|
    ensures Fill(p, s, n).flushed <= Fill(p, s, m).flushed
    decreases m - n
  {
    if n < m {
      FillPrefix(p, s, n, m - 1);
    }
  }

  /** A send that fails at entry n: the batches so far are a prefix of the plan, ending in the one just filled. */
  lemma SendIsPlanned<T>(p: seq<T>, s: seq<T>, n: nat)
    requires 0 < n <= |s| && |Fill(p, s, n - 1).pending + [s[n - 1]]| == BatchLimit
    ensures var f := Fill(p, s, n).flushed;
      0 < |f| <= |Plan(p, s)| && Plan(p, s)[..|f|] == f &&
      f[|f| - 1] == Fill(p, s, n - 1).pending + [s[n - 1]]
  {
    FillPrefix(p, s, n, |s|);
  }

  /** The last call of a run, if any, sends what the loop left pending. */
  lemma PlanEnds<T>(p: seq<T>, s: seq<T>)
    ensures var last := Fill(p, s, |s|);
      (last.pending == [] ==> Plan(p, s) == last.flushed) &&
      (last.pending != [] ==> Plan(p, s) == last.flushed + [last.pending] && Plan(p, s)[|last.flushed|] == last.pending)
  {
  }

  // ------------------------------------------------------------ the class

  class IndexingManager {
    /** The pending batch entries. */
    var messages: seq<Message>
    /** The entries of every batch call made to the queue, in order. */
    var batches: seq<seq<Message>>
    /** Every entry ever added, in order. */
    ghost var added: seq<Message>

    /** The queue client itself is outside the model. */
    constructor ()
      ensures messages == [] && batches == [] && added == []
    {
      messages := [];
      batches := [];
      added := [];
    }

    /** `addMessage`: one more pending entry, for this work. */
    method AddMessage(ref: WorkRef)
      modifies this
      ensures messages == old(messages) + [MessageFor(ref)]
      ensures added == old(added) + [MessageFor(ref)]
      ensures batches == old(batches)
    {
      messages := messages + [MessageFor(ref)];
      added := added + [MessageFor(ref)];
    }

    /**
     * `sendMessages`: one batch call carrying the whole pending list in order.
     * `accepted` is the queue's answer; a failed call is raised as an
     * OutputError and the entries stay pending, a successful one clears them.
     */
    method SendMessages(accepted: bool) returns (r: Result<(), DispatchError>)
      modifies this
      ensures batches == old(batches) + [old(messages)]
      ensures r.Ok? <==> accepted
      ensures r.Ok? ==> messages == []
      ensures r.Err? ==> messages == old(messages) && r.error == OutputError
      ensures added == old(added)
    {
      batches := batches + [messages];
      if !accepted {
        return Err(OutputError);
      }
      messages := [];
      r := Ok(());
    }

    /**
     * One turn of the `loadUpdates` loop: add the work's message and, when
     * that makes ten pending, send them; `accepted` is the answer to that send.
     */
    method Push(ref: WorkRef, accepted: bool) returns (sent: bool, r: Result<(), DispatchError>)
      modifies this
      ensures var q := old(messages) + [MessageFor(ref)];
        (sent <==> |q| == BatchLimit) &&
        (sent ==> batches == old(batches) + [q] && (r.Ok? <==> accepted) && messages == (if r.Ok? then [] else q)) &&
        (!sent ==> batches == old(batches) && messages == q && r.Ok?)
      ensures added == old(added) + [MessageFor(ref)]
    {
      AddMessage(ref);
      sent := |messages| == BatchLimit;
      r := Ok(());
      if sent {
        r := SendMessages(accepted);
      }
    }

    /**
     * The loop of `loadUpdates`: adds one message per changed work and sends
     * the pending list whenever it reaches ten, stopping at the first failed
     * call. `calls` is the number of batch calls made; on failure, `stop` is
     * the position of the work whose message filled the failed batch.
     */
    method AddAndFlush(changed: seq<WorkRef>, accepted: nat -> bool) returns (r: Result<(), DispatchError>, calls: nat, ghost stop: nat)
      modifies this
      ensures var last := Fill(old(messages), MessagesFor(changed), |changed|);
        r.Ok? ==>
          calls == |last.flushed| && batches == old(batches) + last.flushed &&
          messages == last.pending && added == old(added) + MessagesFor(changed) &&
          (forall j :: 0 <= j < calls ==> accepted(j))
      ensures var msgs := MessagesFor(changed);
        r.Err? ==>
          0 < stop + 1 <= |changed| &&
          |Fill(old(messages), msgs, stop).pending + [msgs[stop]]| == BatchLimit &&
          calls == |Fill(old(messages), msgs, stop + 1).flushed| &&
          batches == old(batches) + Fill(old(messages), msgs, stop + 1).flushed &&
          0 < calls && !accepted(calls - 1) && (forall j :: 0 <= j < calls - 1 ==> accepted(j)) &&
          messages == Fill(old(messages), msgs, stop).pending + [msgs[stop]]
    {
      ghost var m0, b0, a0 := messages, batches, added;
      ghost var msgs := MessagesFor(changed);
      ghost var flushed: seq<seq<Message>> := [];
      calls, stop := 0, 0;
      r := Ok(());
      for i := 0 to |changed|
        invariant batches == b0 + flushed
        invariant Fill(m0, msgs, i) == Progress(flushed, messages)
        invariant added == a0 + msgs[..i]
        invariant calls == |flushed|
        invariant forall j :: 0 <= j < calls ==> accepted(j)
        invariant r.Ok?
      {
        ghost var q := messages + [msgs[i]];
        assert msgs[..i + 1] == msgs[..i] + [msgs[i]];
        var sent;
        sent, r := Push(changed[i], accepted(calls));
        if sent {
          flushed := flushed + [q];
          calls := calls + 1;
          if r.Err? {
            stop := i;
            return;
          }
        }
      }
      assert msgs[..|changed|] == msgs;
    }

    /**
     * `loadUpdates`: one message per changed work, a batch call whenever ten
     * are pending, and a last call for the rest. `accepted(j)` is the queue's
     * answer to the j-th call of this run; the first failed call ends the run.
     */
    method LoadUpdates(changed: seq<WorkRef>, accepted: nat -> bool) returns (r: Result<(), DispatchError>)
      modifies this
      ensures var plan := Plan(old(messages), MessagesFor(changed));
        r.Ok? <==> forall j :: 0 <= j < |plan| ==> accepted(j)
      ensures r.Ok? ==>
        batches == old(batches) + Plan(old(messages), MessagesFor(changed)) && messages == [] &&
        added == old(added) + MessagesFor(changed)
      ensures r.Err? ==>
        var plan := Plan(old(messages), MessagesFor(changed));
        var calls := |batches| - |old(batches)|;
        0 < calls <= |plan| && batches == old(batches) + plan[..calls] &&
        !accepted(calls - 1) && (forall j :: 0 <= j < calls - 1 ==> accepted(j)) &&
        messages == plan[calls - 1]
    {
      ghost var m0 := messages;
      ghost var msgs := MessagesFor(changed);
      var calls;
      ghost var stop;
      r, calls, stop := AddAndFlush(changed, accepted);
      if r.Err? {
        SendIsPlanned(m0, msgs, stop + 1);
        return;
      }
      PlanEnds(m0, msgs);
      if |messages| > 0 {
        r := SendMessages(accepted(calls));
      }
    }
  }
}
