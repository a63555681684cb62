/** The signed latency exchange: a countdown of pings that ends in one response with the figures. */
module Latency {
  import opened Sequences
  import opened Statistics

  const WORD := 0x1_0000_0000

  /** A ping that was sent, and maybe answered; times are in nanoseconds. */
  datatype Ping = Waiting(start: int) | Answered(start: int, end: int)

  /** The longest negative duration there is, in microseconds: what is left when the zero time is subtracted from. */
  const UNANSWERED := -9_223_372_036_854_775

  function Micros(p: Ping): int {
    match p
    case Waiting(_) => UNANSWERED
    case Answered(start, end) => if start <= end then (end - start) / 1000 else -((start - end) / 1000)
  }

  /** The whole microseconds between the two times, cut off towards zero. */
  lemma MicrosIff(start: int, end: int, m: int)
    ensures start <= end ==> (Micros(Answered(start, end)) == m <==> 1000 * m <= end - start < 1000 * (m + 1))
    ensures end <= start ==> (Micros(Answered(start, end)) == m <==> 1000 * (m - 1) < end - start <= 1000 * m)
  {
  }

  type Pings = map<nat, Ping>

  datatype Exchange = Exchange(requestID: nat, iteration: nat, pings: Pings)

  datatype Out =
    | PingRequest(id: nat)
    | PingNotFound
    | LatencyResponse(requestID: nat, data: LatencyData, pings: set<nat>)

  /** The order in which a map is visited is arbitrary; each key comes once. */
  ghost predicate Visits(order: seq<nat>, pings: Pings) {
    && |order| == |pings|
    && (forall id :: id in order <==> id in pings)
  }

  function Latencies(pings: Pings, order: seq<nat>): seq<int> {
    seq(|order|, i requires 0 <= i < |order| => if order[i] in pings then Micros(pings[order[i]]) else 0)
  }

  function Begin(requestID: nat, iteration: nat, id: nat, now: int): Exchange {
    Exchange(requestID, iteration, map[id := Waiting(now)])
  }

  /** The counter is a 32-bit word. */
  function Decrement(iteration: nat): nat {
    (iteration + WORD - 1) % WORD
  }

  datatype Answer = Answer(id: nat, now: int, next: nat, order: seq<nat>)

  /** An answer to a known ping counts down; it is followed by another ping, or by the response. */
  function AnswerPing(x: Exchange, a: Answer): (Exchange, Out)
    requires a.order != []
  {
    if a.id !in x.pings then (x, PingNotFound)
    else
      var x1 := x.(iteration := Decrement(x.iteration), pings := x.pings[a.id := Answered(x.pings[a.id].start, a.now)]);
      if x1.iteration > 0 then (x1.(pings := x1.pings[a.next := Waiting(a.now)]), PingRequest(a.next))
      else (x1, LatencyResponse(x.requestID, DataOf(Latencies(x1.pings, a.order)), x1.pings.Keys))
  }

  /** An answer ends the ping it belongs to, where that one began, and leaves the others alone; the counter goes down by one, from
      zero to the largest 32-bit word. Unless it has come to zero, the next ping begins at that moment. */
  lemma AnswerEnds(x: Exchange, a: Answer)
    requires a.order != [] && a.next !in x.pings && x.iteration <= 4294967295
    ensures var (x', out) := AnswerPing(x, a);
      && (a.id !in x.pings ==> x' == x && out == PingNotFound)
      && (a.id in x.pings ==>
            && x'.requestID == x.requestID && a.id in x'.pings
            && x'.pings[a.id] == Answered(x.pings[a.id].start, a.now)
            && (forall id :: id in x.pings && id != a.id ==> id in x'.pings && x'.pings[id] == x.pings[id])
            && x'.iteration == (if x.iteration == 0 then 4294967295 else x.iteration - 1)
            && (x'.iteration > 0 ==>
                  x'.pings.Keys == x.pings.Keys + {a.next} && x'.pings[a.next] == Waiting(a.now) && out == PingRequest(a.next))
            && (x'.iteration == 0 ==> x'.pings.Keys == x.pings.Keys && out.LatencyResponse? && out.requestID == x.requestID))
  {
    hide DataOf, Latencies;
  }

  /** An exchange so far: what was sent, and which pings were answered, in order. */
  datatype Run = Run(x: Exchange, outs: seq<Out>, answered: seq<nat>)

  function PlayOne(r: Run, a: Answer): Run
    requires a.order != []
  {
    var (x, out) := AnswerPing(r.x, a);
    Run(x, r.outs + [out], if a.id in r.x.pings then r.answered + [a.id] else r.answered)
  }

  /** New pings have new ids, and the pings are visited once each. */
  ghost predicate Orderly(r: Run, answers: seq<Answer>)
    decreases |answers|
  {
    answers != [] ==>
      && answers[0].order != [] && answers[0].next !in r.x.pings
      && (answers[0].id in r.x.pings ==> Visits(answers[0].order, r.x.pings))
      && Orderly(PlayOne(r, answers[0]), answers[1..])
  }

  ghost function Play(r: Run, answers: seq<Answer>): Run
    requires Orderly(r, answers)
    decreases |answers|
  {
    if answers == [] then r else Play(PlayOne(r, answers[0]), answers[1..])
  }

  function PingsIn(outs: seq<Out>): nat {
    if outs == [] then 0 else PingsIn(outs[..|outs| - 1]) + if outs[|outs| - 1].PingRequest? then 1 else 0
  }

  function ResponsesIn(outs: seq<Out>): nat {
    if outs == [] then 0 else ResponsesIn(outs[..|outs| - 1]) + if outs[|outs| - 1].LatencyResponse? then 1 else 0
  }

  function FirstRun(requestID: nat, n: nat, id: nat, now: int): Run {
    Run(Begin(requestID, n, id, now), [PingRequest(id)], [])
  }

  /** Where an exchange of `n` iterations stands as long as no more than `n` answers have been accepted. */
  ghost predicate Progress(r: Run, n: nat) {
    var k := |r.answered|;
    && k <= n
    && r.x.iteration == n - k
    && |r.x.pings| == PingsIn(r.outs) == (if k < n then k + 1 else n)
    && ResponsesIn(r.outs) == (if k < n then 0 else 1)
    && (forall id :: id in r.answered ==> id in r.x.pings)
    && (forall id :: id in r.x.pings ==> (r.x.pings[id].Answered? <==> id in r.answered))
  }

  lemma FirstProgress(requestID: nat, n: nat, id: nat, now: int)
    requires 1 <= n < WORD
    ensures Progress(FirstRun(requestID, n, id, now), n)
  {
    assert PingsIn([PingRequest(id)][..0]) == 0 && ResponsesIn([PingRequest(id)][..0]) == 0;
  }

  lemma CountOne(outs: seq<Out>, out: Out)
    ensures PingsIn(outs + [out]) == PingsIn(outs) + if out.PingRequest? then 1 else 0
    ensures ResponsesIn(outs + [out]) == ResponsesIn(outs) + if out.LatencyResponse? then 1 else 0
  {
    assert (outs + [out])[..|outs + [out]| - 1] == outs;
  }

  lemma AddedPing(pings: Pings, id: nat, p: Ping)
    ensures |pings[id := p]| == if id in pings then |pings| else |pings| + 1
  {
    if id in pings {
      assert pings[id := p].Keys == pings.Keys;
    } else {
      assert pings[id := p].Keys == pings.Keys + {id};
    }
  }

  lemma AnswerProgress(r: Run, a: Answer, n: nat)
    requires Progress(r, n) && n < WORD && a.order != [] && a.next !in r.x.pings
    requires a.id in r.x.pings ==> |r.answered| < n
    ensures Progress(PlayOne(r, a), n)
  {
    hide DataOf, Latencies;
    var (x, out) := AnswerPing(r.x, a);
    CountOne(r.outs, out);
    if a.id in r.x.pings {
      var answered := r.x.pings[a.id := Answered(r.x.pings[a.id].start, a.now)];
      AddedPing(r.x.pings, a.id, answered[a.id]);
      AddedPing(answered, a.next, Waiting(a.now));
      assert Decrement(r.x.iteration) == r.x.iteration - 1;
    }
  }

  lemma {:induction false} AnsweredGrows(r: Run, answers: seq<Answer>)
    requires Orderly(r, answers)
    ensures |r.answered| <= |Play(r, answers).answered|
    decreases |answers|
  {
    if answers != [] {
      AnsweredGrows(PlayOne(r, answers[0]), answers[1..]);
    }
  }

  lemma {:induction false} PlayProgress(r: Run, answers: seq<Answer>, n: nat)
    requires Orderly(r, answers) && Progress(r, n) && n < WORD && |Play(r, answers).answered| <= n
    ensures Progress(Play(r, answers), n)
    decreases |answers|
  {
    hide Progress, AnswerPing;
    if answers != [] {
      var r1 := PlayOne(r, answers[0]);
      AnsweredGrows(r1, answers[1..]);
      AnswerProgress(r, answers[0], n);
      PlayProgress(r1, answers[1..], n);
    }
  }

  /** Until the exchange completes, pings sent and iterations left add up to n + 1 and nothing is reported; n accepted
      answers make one response, whatever else is answered that was never asked. */
  lemma ExactlyOneResponse(requestID: nat, n: nat, id: nat, now: int, answers: seq<Answer>)
    requires 1 <= n < WORD && Orderly(FirstRun(requestID, n, id, now), answers)
    requires |Play(FirstRun(requestID, n, id, now), answers).answered| <= n
    ensures var r := Play(FirstRun(requestID, n, id, now), answers);
      && (|r.answered| < n ==> PingsIn(r.outs) + r.x.iteration == n + 1 && ResponsesIn(r.outs) == 0)
      && (|r.answered| == n ==> PingsIn(r.outs) == |r.x.pings| == n && r.x.iteration == 0 && ResponsesIn(r.outs) == 1)
  {
    FirstProgress(requestID, n, id, now);
    PlayProgress(FirstRun(requestID, n, id, now), answers, n);
  }

  ghost function Elements(s: seq<nat>): set<nat> {
    set x | x in s
  }

  lemma {:induction false} ElementsCount(s: seq<nat>)
    ensures |Elements(s)| <= |s| && (|Elements(s)| == |s| <==> Distinct(s))
  {
    if s != [] {
      var init, last := s[..|s| - 1], s[|s| - 1];
      ElementsCount(init);
      assert s == init + [last];
      assert Elements(s) == Elements(init) + {last};
      if last in init {
        assert Elements(s) == Elements(init);
        var i :| 0 <= i < |init| && init[i] == last;
        assert s[i] == s[|s| - 1];
      } else {
        assert Distinct(init) ==> Distinct(s);
        assert Distinct(s) ==> Distinct(init);
      }
    } else {
      assert Elements(s) == {};
    }
  }

  lemma SubsetCount(a: set<nat>, b: set<nat>)
    requires a <= b
    ensures |a| <= |b| && (|a| == |b| <==> a == b)
  {
    assert b == a + (b - a);
  }

  /** The response covers completed samples only, exactly if no ping was answered twice. */
  lemma CompleteIffDistinct(r: Run, n: nat)
    requires Progress(r, n) && |r.answered| == n
    ensures (forall id :: id in r.x.pings ==> r.x.pings[id].Answered?) <==> Distinct(r.answered)
  {
    var seen := Elements(r.answered);
    ElementsCount(r.answered);
    SubsetCount(seen, r.x.pings.Keys);
    if forall id :: id in r.x.pings ==> r.x.pings[id].Answered? {
      assert seen == r.x.pings.Keys;
    }
    if Distinct(r.answered) {
      assert seen == r.x.pings.Keys;
      forall id | id in r.x.pings ensures r.x.pings[id].Answered? {
        assert id in seen;
      }
    }
  }

  /** The answer that completes an exchange is the one that is followed by the response. Each ping answered once, at
      least a microsecond after it was sent, the response reports n completed samples, with their true extremes, their
      mean between these, and their 95th percentile. */
  lemma CompletionReports(r: Run, a: Answer, n: nat)
    requires Progress(r, n) && 2 <= n < WORD && |r.answered| == n - 1 && a.id in r.x.pings
    requires Visits(a.order, r.x.pings) && a.order != [] && a.next !in r.x.pings
    requires Distinct(r.answered + [a.id])
    requires forall id :: id in PlayOne(r, a).x.pings && PlayOne(r, a).x.pings[id].Answered? ==> Micros(PlayOne(r, a).x.pings[id]) >= 1
    ensures var x, out := PlayOne(r, a).x, AnswerPing(r.x, a).1;
      && out.LatencyResponse? && out.requestID == r.x.requestID && out.pings == x.pings.Keys && |x.pings| == n
      && (forall id :: id in x.pings ==> x.pings[id].Answered?)
      && out.data.iterationCount == n
      && (forall id :: id in x.pings ==> out.data.min <= Micros(x.pings[id]) <= out.data.max)
      && (exists id :: id in x.pings && Micros(x.pings[id]) == out.data.min)
      && (exists id :: id in x.pings && Micros(x.pings[id]) == out.data.max)
      && (exists id :: id in x.pings && Micros(x.pings[id]) == out.data.p95)
      && out.data.min <= out.data.mean <= out.data.max
      && var ls := Latencies(x.pings, a.order);
         && (forall i :: 0 <= i < n ==> a.order[i] in x.pings && ls[i] == Micros(x.pings[a.order[i]]))
         && 95 * n < 100 * (AtMost(ls, out.data.p95) + 1)
         && (forall y :: y < out.data.p95 ==> 100 * (AtMost(ls, y) + 1) <= 95 * n)
         && 2 * (out.data.mean * n) <= 2 * Sum(ls) + n && 2 * Sum(ls) < 2 * (out.data.mean * n) + n
         && out.data.last == ls[n - 1]
    ensures var x := PlayOne(r, a).x;
      forall id :: id in x.pings ==>
        && x.pings[id].Answered?
        && 1000 * Micros(x.pings[id]) <= x.pings[id].end - x.pings[id].start < 1000 * (Micros(x.pings[id]) + 1)
  {
    hide DataOf, IsMinimum, IsMaximum, AtMost, Sum;
    var r1 := PlayOne(r, a);
    var ls := Latencies(r1.x.pings, a.order);
    AnswerProgress(r, a, n);
    assert Decrement(r.x.iteration) == 0;
    assert r1.x.pings.Keys == r.x.pings.Keys;
    CompleteIffDistinct(r1, n);
    assert |ls| == n;
    forall i | 0 <= i < |ls| ensures 0 < ls[i] {
      assert a.order[i] in r1.x.pings;
    }
    DataMeaning(ls);
    ListedLatencies(r1.x.pings, a.order, DataOf(ls).min, DataOf(ls).max);
    Listed(r1.x.pings, a.order, DataOf(ls).p95);
    forall id | id in r1.x.pings
      ensures var p := r1.x.pings[id]; p.Answered? && 1000 * Micros(p) <= p.end - p.start < 1000 * (Micros(p) + 1)
    {
      MicrosIff(r1.x.pings[id].start, r1.x.pings[id].end, Micros(r1.x.pings[id]));
    }
  }

  lemma Listed(pings: Pings, order: seq<nat>, l: int)
    requires Visits(order, pings) && l in Latencies(pings, order)
    ensures exists id :: id in pings && Micros(pings[id]) == l
  {
    var i :| 0 <= i < |order| && Latencies(pings, order)[i] == l;
    assert order[i] in pings && Micros(pings[order[i]]) == l;
  }

  lemma ListedLatencies(pings: Pings, order: seq<nat>, min: int, max: int)
    requires Visits(order, pings) && IsMinimum(min, Latencies(pings, order)) && IsMaximum(max, Latencies(pings, order))
    ensures forall id :: id in pings ==> min <= Micros(pings[id]) <= max
    ensures exists id :: id in pings && Micros(pings[id]) == min
    ensures exists id :: id in pings && Micros(pings[id]) == max
  {
    forall id | id in pings ensures min <= Micros(pings[id]) <= max {
      assert id in order;
      var i :| 0 <= i < |order| && order[i] == id;
      assert Latencies(pings, order)[i] == Micros(pings[id]);
    }
    Listed(pings, order, min);
    Listed(pings, order, max);
  }

  /** An answer that comes after completion makes the counter wrap around, and another ping is sent. */
  lemma AfterCompletion(r: Run, a: Answer, n: nat)
    requires Progress(r, n) && |r.answered| == n && a.id in r.x.pings && a.order != []
    ensures AnswerPing(r.x, a).0.iteration == WORD - 1 && AnswerPing(r.x, a).1 == PingRequest(a.next)
  {
    hide DataOf, Latencies;
  }

  /** Two answers to the first ping complete an exchange of two, whose second ping was never answered. */
  lemma DuplicateAnswer(start: int, now: int)
    ensures var r := PlayOne(PlayOne(FirstRun(0, 2, 1, start), Answer(1, now, 2, [1])), Answer(1, now, 3, [1, 2]));
      r.x.iteration == 0 && r.outs[|r.outs| - 1].LatencyResponse? && r.x.pings[2].Waiting?
  {
    hide DataOf, Latencies;
    assert Decrement(2) == 1 && Decrement(1) == 0;
  }

  lemma NoLatencies(pings: Pings)
    ensures Latencies(pings, []) == [] && RunningMin([]) == RunningMax([]) == Sum([]) == 0
  {
  }

  /** What one more visited ping does to the running figures. */
  lemma OneMoreLatency(pings: Pings, order: seq<nat>, id: nat)
    requires id in pings
    ensures var ls, l := Latencies(pings, order), Micros(pings[id]);
      && Latencies(pings, order + [id]) == ls + [l]
      && RunningMin(ls + [l]) == (if l < RunningMin(ls) || RunningMin(ls) == 0 then l else RunningMin(ls))
      && RunningMax(ls + [l]) == (if l > RunningMax(ls) then l else RunningMax(ls))
      && Sum(ls + [l]) == Sum(ls) + l
  {
    var ls, l := Latencies(pings, order), Micros(pings[id]);
    assert (ls + [l])[..|ls + [l]| - 1] == ls;
  }

  class SignedLatency {
    var requestID: nat
    var iteration: nat
    var pingRequests: Pings
    /** What the sender was given. */
    var sent: seq<Out>

    constructor ()
      ensures View() == Exchange(0, 0, map[]) && sent == []
    {
      requestID, iteration, pingRequests, sent := 0, 0, map[], [];
    }

    function View(): Exchange
      reads this
    {
      Exchange(requestID, iteration, pingRequests)
    }

    method SendPingRequest(id: nat, now: int)
      modifies this
      ensures View() == old(View()).(pings := old(pingRequests)[id := Waiting(now)])
      ensures sent == old(sent) + [PingRequest(id)]
    {
      pingRequests := pingRequests[id := Waiting(now)];
      sent := sent + [PingRequest(id)];
    }

    method Start(requestID: nat, iteration: nat, id: nat, now: int)
      modifies this
      ensures View() == Begin(requestID, iteration, id, now) && sent == old(sent) + [PingRequest(id)]
      ensures this.requestID == requestID && this.iteration == iteration && pingRequests == map[id := Waiting(now)]
    {
      this.requestID := requestID;
      this.iteration := iteration;
      pingRequests := map[];
      SendPingRequest(id, now);
    }

    /** The figures over the pings, which are visited in some order. */
    method Compute() returns (data: LatencyData, order: seq<nat>)
      requires pingRequests != map[]
      ensures order != [] && Visits(order, pingRequests) && data == DataOf(Latencies(pingRequests, order))
    {
      hide RunningMin, RunningMax, Sum, Micros, Latencies, Sorted;
      NoLatencies(pingRequests);
      var min, max, mean, latencies := 0, 0, 0, [];
      order := [];
      var rest := pingRequests.Keys;
      while rest != {}
        invariant rest <= pingRequests.Keys
        invariant forall id :: id in order <==> id in pingRequests && id !in rest
        invariant |order| + |rest| == |pingRequests|
        invariant latencies == Latencies(pingRequests, order) && |latencies| == |order|
        invariant min == RunningMin(latencies) && max == RunningMax(latencies) && mean == Sum(latencies)
        decreases |rest|
      {
        var id :| id in rest;
        var latency := Micros(pingRequests[id]);
        rest := rest - {id};
        OneMoreLatency(pingRequests, order, id);
        latencies := latencies + [latency];
        order := order + [id];
        if latency < min || min == 0 {
          min := latency;
        }
        if latency > max {
          max := latency;
        }
        mean := mean + latency;
      }
      assert order != [] by {
        var id :| id in pingRequests;
        assert id in order;
      }
      SortedAscends(latencies);
      var count := |latencies|;
      mean := Round(mean as real / count as real);
      var last := latencies[count - 1];
      latencies := Sorted(latencies);
      var index, p95 := Rank95(count), 0;
      if index < count && index > 0 {
        p95 := latencies[index - 1];
      }
      data := LatencyData(min, max, mean, p95, last, |pingRequests|);
    }

    method OnPing(id: nat, now: int, next: nat) returns (ok: bool, ghost order: seq<nat>)
      modifies this
      ensures ok <==> id in old(pingRequests)
      ensures order != []
      ensures View() == AnswerPing(old(View()), Answer(id, now, next, order)).0
      ensures sent == old(sent) + if ok then [AnswerPing(old(View()), Answer(id, now, next, order)).1] else []
      ensures ok && iteration == 0 ==> Visits(order, old(pingRequests)[id := Answered(old(pingRequests)[id].start, now)])
    {
      order := [0];
      if id !in pingRequests {
        ok := false;
        return;
      }
      ok := true;
      iteration := Decrement(iteration);
      pingRequests := pingRequests[id := Answered(pingRequests[id].start, now)];
      if iteration > 0 {
        SendPingRequest(next, now);
        return;
      }
      assert id in pingRequests;
      var data;
      data, order := Compute();
      sent := sent + [LatencyResponse(requestID, data, pingRequests.Keys)];
    }
  }
}
