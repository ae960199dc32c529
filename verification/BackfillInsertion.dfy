/** Why inserting at a running offset puts every synthetic result where `Weave`
    puts it: each insertion point lies inside, or at the end of, the block of tool
    results that belongs to its own assistant. */
module BackfillInsertion {
  import opened ChatMessages
  import opened RepairPasses
  import opened RepairLemmas
  import opened Sequences

  /** An entry of the program's `declared` and `missing` lists. */
  datatype Pending = Pending(at: nat, id: string, name: string)

  function PendingsOf(at: nat, calls: seq<ToolCall>): seq<Pending> {
    if calls == [] then []
    else
      var tc := Last(calls);
      PendingsOf(at, Init(calls)) + if CallId(tc) != "" then [Pending(at, CallId(tc), BackfillName(tc))] else []
  }

  function Pendings(ms: seq<Message>): seq<Pending> {
    if ms == [] then [] else Pendings(Init(ms)) + PendingsOf(|ms| - 1, CallsOf(Last(ms)))
  }

  /** The list comprehension that keeps what `fulfilled` does not contain. */
  function Unfulfilled(ps: seq<Pending>, fulfilled: set<string>): seq<Pending> {
    if ps == [] then []
    else Unfulfilled(Init(ps), fulfilled) + if Last(ps).id !in fulfilled then [Last(ps)] else []
  }

  /** The synthetic results that a list of entries asks for behind position `i`. */
  function ExtraAt(ps: seq<Pending>, i: nat): seq<Message> {
    if ps == [] then []
    else ExtraAt(Init(ps), i) + if Last(ps).at == i then [BackfillMessage(Last(ps).id, Last(ps).name)] else []
  }

  function Extras(ps: seq<Pending>, n: nat): seq<seq<Message>> {
    seq(n, i requires 0 <= i < n => ExtraAt(ps, i))
  }

  function TotalLength(extra: seq<seq<Message>>): nat {
    if extra == [] then 0 else TotalLength(Init(extra)) + |Last(extra)|
  }

  /** Entries are in the order of their assistants, and name assistants. */
  predicate Ordered(ps: seq<Pending>, ms: seq<Message>) {
    && (forall j | 0 <= j < |ps| :: ps[j].at < |ms| && ms[ps[j].at].role.Assistant?)
    && forall j, k | 0 <= j <= k < |ps| :: ps[j].at <= ps[k].at
  }

  lemma {:induction false} PendingsOrdered(ms: seq<Message>)
    ensures Ordered(Pendings(ms), ms)
  {
    if ms != [] {
      PendingsOrdered(Init(ms));
      PendingsOfAt(|ms| - 1, CallsOf(Last(ms)));
      var a, b := Pendings(Init(ms)), PendingsOf(|ms| - 1, CallsOf(Last(ms)));
      var all: seq<Pending> := a + b;
      forall j | 0 <= j < |all|
        ensures all[j].at < |ms| && ms[all[j].at].role.Assistant?
      {
        if j < |a| { assert a[j].at < |Init(ms)| && Init(ms)[a[j].at].role.Assistant?; }
      }
    }
  }

  lemma {:induction false} PendingsOfAt(at: nat, calls: seq<ToolCall>)
    ensures forall p | p in PendingsOf(at, calls) :: p.at == at
  {
    if calls != [] { PendingsOfAt(at, Init(calls)); }
  }

  lemma {:induction false} OrderedInit(ps: seq<Pending>, ms: seq<Message>)
    requires Ordered(ps, ms) && ps != []
    ensures Ordered(Init(ps), ms) && Last(ps).at < |ms| && ms[Last(ps).at].role.Assistant?
    ensures forall j | 0 <= j < |Init(ps)| :: Init(ps)[j].at <= Last(ps).at
  {
    var front := Init(ps);
    assert forall j | 0 <= j < |front| :: front[j] == ps[j];
  }

  lemma {:induction false} OrderedSnoc(ps: seq<Pending>, p: Pending, ms: seq<Message>)
    requires Ordered(ps, ms) && p.at < |ms| && ms[p.at].role.Assistant?
    requires forall j | 0 <= j < |ps| :: ps[j].at <= p.at
    ensures Ordered(ps + [p], ms)
  {
  }

  lemma {:induction false} UnfulfilledFrom(ps: seq<Pending>, fulfilled: set<string>, p: Pending) returns (k: nat)
    requires p in Unfulfilled(ps, fulfilled)
    ensures k < |ps| && ps[k] == p
  {
    if p in Unfulfilled(Init(ps), fulfilled) {
      k := UnfulfilledFrom(Init(ps), fulfilled, p);
      assert Init(ps)[k] == ps[k];
    } else {
      k := |ps| - 1;
    }
  }

  lemma {:induction false} UnfulfilledOrdered(ps: seq<Pending>, fulfilled: set<string>, ms: seq<Message>)
    requires Ordered(ps, ms)
    ensures Ordered(Unfulfilled(ps, fulfilled), ms)
  {
    if ps != [] {
      var front, u := Init(ps), Unfulfilled(Init(ps), fulfilled);
      OrderedInit(ps, ms);
      UnfulfilledOrdered(front, fulfilled, ms);
      forall j | 0 <= j < |u| ensures u[j].at <= Last(ps).at {
        var k := UnfulfilledFrom(front, fulfilled, u[j]);
        assert front[k].at <= Last(ps).at;
      }
      if Last(ps).id !in fulfilled { OrderedSnoc(u, Last(ps), ms); }
    }
  }

  lemma {:induction false} ExtraAtConcat(a: seq<Pending>, b: seq<Pending>, i: nat)
    ensures ExtraAt(a + b, i) == ExtraAt(a, i) + ExtraAt(b, i)
  {
    if b == [] {
      assert a + b == a;
    } else {
      assert Init(a + b) == a + Init(b) && Last(a + b) == Last(b);
      ExtraAtConcat(a, Init(b), i);
    }
  }

  lemma {:induction false} UnfulfilledConcat(a: seq<Pending>, b: seq<Pending>, fulfilled: set<string>)
    ensures Unfulfilled(a + b, fulfilled) == Unfulfilled(a, fulfilled) + Unfulfilled(b, fulfilled)
  {
    if b == [] {
      assert a + b == a;
    } else {
      assert Init(a + b) == a + Init(b) && Last(a + b) == Last(b);
      UnfulfilledConcat(a, Init(b), fulfilled);
    }
  }

  lemma {:induction false} ExtraAtElsewhere(ps: seq<Pending>, i: nat)
    requires forall p | p in ps :: p.at != i
    ensures ExtraAt(ps, i) == []
  {
    if ps != [] {
      assert Last(ps) in ps;
      ExtraAtElsewhere(Init(ps), i);
    }
  }

  lemma {:induction false} ExtraOfCalls(
      at: nat, calls: seq<ToolCall>, fulfilled: set<string>, answered: multiset<string>)
    requires forall id: string :: id in fulfilled <==> id in answered
    ensures ExtraAt(Unfulfilled(PendingsOf(at, calls), fulfilled), at) == MissingFor(calls, answered)
    ensures forall p | p in Unfulfilled(PendingsOf(at, calls), fulfilled) :: p.at == at
  {
    if calls != [] {
      var tc := Last(calls);
      var p := PendingsOf(at, Init(calls));
      ExtraOfCalls(at, Init(calls), fulfilled, answered);
      if CallId(tc) != "" {
        var e := [Pending(at, CallId(tc), BackfillName(tc))];
        UnfulfilledConcat(p, e, fulfilled);
        ExtraAtConcat(Unfulfilled(p, fulfilled), Unfulfilled(e, fulfilled), at);
        assert Init(e) == [];
      } else {
        assert PendingsOf(at, calls) == p;
      }
    }
  }

  /** The `missing` list asks, behind every position, for exactly what `Missing` says. */
  lemma {:induction false} MissingListIsMissing(
    ms: seq<Message>, fulfilled: set<string>, answered: multiset<string>, i: nat)
    requires forall id: string :: id in fulfilled <==> id in answered
    requires i < |ms|
    ensures ExtraAt(Unfulfilled(Pendings(ms), fulfilled), i) == MissingFor(CallsOf(ms[i]), answered)
  {
    var n := |ms| - 1;
    var a, b := Pendings(Init(ms)), PendingsOf(n, CallsOf(Last(ms)));
    UnfulfilledConcat(a, b, fulfilled);
    ExtraAtConcat(Unfulfilled(a, fulfilled), Unfulfilled(b, fulfilled), i);
    ExtraOfCalls(n, CallsOf(Last(ms)), fulfilled, answered);
    if i < n {
      MissingListIsMissing(Init(ms), fulfilled, answered, i);
      ExtraAtElsewhere(Unfulfilled(b, fulfilled), i);
      assert Init(ms)[i] == ms[i];
      assert ExtraAt(Unfulfilled(a + b, fulfilled), i) == ExtraAt(Unfulfilled(a, fulfilled), i);
    } else {
      EntriesAreEarlier(Init(ms), fulfilled);
      ExtraAtElsewhere(Unfulfilled(a, fulfilled), i);
      assert ExtraAt(Unfulfilled(a + b, fulfilled), i) == ExtraAt(Unfulfilled(b, fulfilled), i);
      assert Last(ms) == ms[i];
    }
  }

  lemma {:induction false} EntriesAreEarlier(ms: seq<Message>, fulfilled: set<string>)
    ensures forall p | p in Unfulfilled(Pendings(ms), fulfilled) :: p.at < |ms|
  {
    PendingsOrdered(ms);
    UnfulfilledOrdered(Pendings(ms), fulfilled, ms);
  }

  lemma {:induction false} ExtrasSnoc(ps: seq<Pending>, n: nat)
    requires ps != [] && Last(ps).at < n
    ensures var a, p := Last(ps).at, Extras(Init(ps), n);
            Extras(ps, n) == p[a := p[a] + [BackfillMessage(Last(ps).id, Last(ps).name)]]
  {
    var a, p := Last(ps).at, Extras(Init(ps), n);
    var q := p[a := p[a] + [BackfillMessage(Last(ps).id, Last(ps).name)]];
    forall i | 0 <= i < n ensures Extras(ps, n)[i] == q[i] {
      if i != a { assert ExtraAt(ps, i) == ExtraAt(Init(ps), i); }
    }
  }

  lemma {:induction false} TotalIsCount(ps: seq<Pending>, n: nat)
    requires forall p | p in ps :: p.at < n
    ensures TotalLength(Extras(ps, n)) == |ps|
  {
    if ps == [] {
      TotalOfNothing(Extras(ps, n));
    } else {
      TotalIsCount(Init(ps), n);
      assert Last(ps) in ps;
      var a := Last(ps).at;
      var x := BackfillMessage(Last(ps).id, Last(ps).name);
      ExtrasSnoc(ps, n);
      TotalOfUpdate(Extras(Init(ps), n), a, x);
    }
  }

  lemma {:induction false} TotalOfNothing(extra: seq<seq<Message>>)
    requires forall i | 0 <= i < |extra| :: extra[i] == []
    ensures TotalLength(extra) == 0
  {
    if extra != [] { TotalOfNothing(Init(extra)); }
  }

  lemma {:induction false} TotalOfUpdate(extra: seq<seq<Message>>, a: nat, x: Message)
    requires a < |extra|
    ensures TotalLength(extra[a := extra[a] + [x]]) == TotalLength(extra) + 1
  {
    var u := extra[a := extra[a] + [x]];
    if a < |extra| - 1 {
      assert Init(u) == Init(extra)[a := Init(extra)[a] + [x]];
      TotalOfUpdate(Init(extra), a, x);
    } else {
      assert Init(u) == Init(extra);
    }
  }

  lemma {:induction false} WovenLength(ms: seq<Message>, extra: seq<seq<Message>>)
    requires |ms| == |extra|
    ensures |Woven(ms, extra)| == |ms| + TotalLength(extra)
  {
    if ms != [] { WovenLength(Init(ms), Init(extra)); }
  }

  /** `e` is where the block of tool results behind the assistant at `a` ends. */
  predicate BlockEnd(ms: seq<Message>, a: nat, e: nat) {
    && a < e <= |ms|
    && ms[a].role.Assistant?
    && (forall i | a < i < e :: ms[i].role.Tool?)
    && (e < |ms| ==> !ms[e].role.Tool?)
  }

  lemma {:induction false} BlockEndExists(ms: seq<Message>, a: nat, from: nat)
    requires a < from <= |ms| && ms[a].role.Assistant?
    requires forall i | a < i < from :: ms[i].role.Tool?
    ensures exists e :: BlockEnd(ms, a, e)
    decreases |ms| - from
  {
    if from < |ms| && ms[from].role.Tool? {
      BlockEndExists(ms, a, from + 1);
    } else {
      assert BlockEnd(ms, a, from);
    }
  }

  function Before(ms: seq<Message>, extra: seq<seq<Message>>, a: nat): seq<Message>
    requires |ms| == |extra| && a <= |ms|
  {
    Woven(ms[..a], extra[..a])
  }

  lemma {:induction false} SliceSnoc(w: seq<Message>, ms: seq<Message>, a: nat, n: nat)
    requires a < n <= |ms|
    ensures w + ms[a..n - 1] + [ms[n - 1]] == w + ms[a..n]
    ensures w + ms[a..n - 1] + [] == w + ms[a..n - 1]
  {
    assert ms[a..n - 1] + [ms[n - 1]] == ms[a..n];
  }

  /** The woven list around the last assistant that has extras. */
  lemma {:induction false} WovenAround(ms: seq<Message>, extra: seq<seq<Message>>, a: nat, e: nat, n: nat)
    requires |ms| == |extra| && BlockEnd(ms, a, e) && a < n <= |ms|
    requires forall i | a < i < |ms| :: extra[i] == []
    ensures Weave(ms[..n], extra[..n]) ==
            if n <= e then (Before(ms, extra, a) + ms[a..n], extra[a])
            else (Before(ms, extra, a) + ms[a..e] + extra[a] + ms[e..n], [])
  {
    assert Init(ms[..n]) == ms[..n - 1] && Last(ms[..n]) == ms[n - 1];
    assert Init(extra[..n]) == extra[..n - 1] && Last(extra[..n]) == extra[n - 1];
    var pre := Before(ms, extra, a);
    if n == a + 1 {
      assert ms[a..n] == [ms[a]];
    } else {
      WovenAround(ms, extra, a, e, n - 1);
      if n <= e {
        SliceSnoc(pre, ms, a, n);
        assert extra[a] + extra[n - 1] == extra[a];
      } else if n == e + 1 {
        assert ms[e..n] == [ms[e]];
      } else {
        SliceSnoc(pre + ms[a..e] + extra[a], ms, e, n);
        var none: seq<Message> := [];
        assert none + extra[n - 1] == none;
      }
    }
  }

  lemma {:induction false} WovenSplits(ms: seq<Message>, extra: seq<seq<Message>>, a: nat, e: nat)
    requires |ms| == |extra| && BlockEnd(ms, a, e)
    requires forall i | a < i < |ms| :: extra[i] == []
    ensures Woven(ms, extra) == Before(ms, extra, a) + ms[a..e] + extra[a] + ms[e..]
    ensures |Before(ms, extra, a)| == a + TotalLength(extra[..a])
  {
    WovenAround(ms, extra, a, e, |ms|);
    assert ms[..|ms|] == ms && extra[..|ms|] == extra;
    WovenLength(ms[..a], extra[..a]);
  }

  /** One step of the insertion loop. `k` is the block's end in the list built so
      far: the running offset starts at or before it, only tool results lie
      between, and inserting there is what the next entry asks for. */
  lemma {:induction false} InsertionStep(ms: seq<Message>, ps: seq<Pending>, j: nat, e: nat) returns (k: nat)
    requires Ordered(ps, ms) && j < |ps| && BlockEnd(ms, ps[j].at, e)
    ensures var woven := Woven(ms, Extras(ps[..j], |ms|));
            && ps[j].at + 1 + j <= k <= |woven|
            && (forall i | ps[j].at + 1 + j <= i < k :: woven[i].role.Tool?)
            && (k < |woven| ==> !woven[k].role.Tool?)
            && Woven(ms, Extras(ps[..j + 1], |ms|)) ==
               woven[..k] + [BackfillMessage(ps[j].id, ps[j].name)] + woven[k..]
  {
    var a, n := ps[j].at, |ms|;
    var extra, next := Extras(ps[..j], n), Extras(ps[..j + 1], n);
    var x := BackfillMessage(ps[j].id, ps[j].name);
    assert Init(ps[..j + 1]) == ps[..j] && Last(ps[..j + 1]) == ps[j];
    ExtrasSnoc(ps[..j + 1], n);
    forall i | a < i < n ensures extra[i] == [] && next[i] == [] {
      ExtraAtElsewhere(ps[..j], i);
    }
    OffsetIsInBlock(ms, ps, j);
    WovenSplits(ms, extra, a, e);
    WovenSplits(ms, next, a, e);
    assert next[..a] == extra[..a];
    ExtrasAreTools(ps[..j], a);
    k := |Before(ms, extra, a)| + (e - a) + |extra[a]|;
    BlockIsTools(Before(ms, extra, a), ms, extra[a], a, e);
    Splice(Before(ms, extra, a) + ms[a..e] + extra[a], x, ms[e..]);
    assert Before(ms, extra, a) + ms[a..e] + next[a] == Before(ms, extra, a) + ms[a..e] + extra[a] + [x];
  }

  lemma {:induction false} Splice(front: seq<Message>, x: Message, back: seq<Message>)
    ensures (front + back)[..|front|] + [x] + (front + back)[|front|..] == front + [x] + back
  {
  }

  lemma {:induction false} BlockIsTools(pre: seq<Message>, ms: seq<Message>, extra: seq<Message>, a: nat, e: nat)
    requires BlockEnd(ms, a, e)
    requires forall m | m in extra :: m.role.Tool?
    ensures var w := pre + ms[a..e] + extra + ms[e..];
            var k := |pre| + (e - a) + |extra|;
            && k <= |w| && (forall i | |pre| < i < k :: w[i].role.Tool?)
            && (k < |w| ==> !w[k].role.Tool?)
  {
    var w := pre + ms[a..e] + extra + ms[e..];
    var k := |pre| + (e - a) + |extra|;
    forall i | |pre| < i < k ensures w[i].role.Tool? {
      if i < |pre| + (e - a) {
        assert w[i] == ms[a + (i - |pre|)];
      } else {
        assert w[i] == extra[i - |pre| - (e - a)];
      }
    }
    assert k < |w| ==> w[k] == ms[e];
  }

  /** The running offset counts what was inserted so far: everything before the
      current assistant, and what its own block already received. */
  lemma {:induction false} OffsetIsInBlock(ms: seq<Message>, ps: seq<Pending>, j: nat)
    requires Ordered(ps, ms) && j < |ps|
    ensures var a, extra := ps[j].at, Extras(ps[..j], |ms|);
            TotalLength(extra[..a]) + |extra[a]| == j
  {
    var a, extra := ps[j].at, Extras(ps[..j], |ms|);
    TotalIsCount(ps[..j], a + 1);
    assert Extras(ps[..j], a + 1) == extra[..a + 1];
    assert Init(extra[..a + 1]) == extra[..a] && Last(extra[..a + 1]) == extra[a];
  }

  /** With nothing to insert, the woven list is the history itself. */
  lemma {:induction false} NothingWoven(ms: seq<Message>)
    ensures Woven(ms, Extras([], |ms|)) == ms
  {
    WeaveNothing(ms, Extras([], |ms|));
  }

  lemma {:induction false} ExtrasAreTools(ps: seq<Pending>, i: nat)
    ensures forall m | m in ExtraAt(ps, i) :: m.role.Tool?
  {
    if ps != [] { ExtrasAreTools(Init(ps), i); }
  }
}
