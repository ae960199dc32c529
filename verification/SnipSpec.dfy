/** The tier of last resort: keep the system messages and a suffix of the rest. The
    suffix is described by the index where it starts, and the index by what it is the
    least or greatest of. */
module SnipSpec {
  import opened Sequences
  import opened Wrappers
  import opened ChatMessages
  import opened CompactionSpec

  // --------------------------------------------------------- the least legal start

  /** Every result that carries an id is declared earlier in the same list. */
  predicate IdsDeclared(ms: seq<Message>) {
    ms == [] ||
    (IdsDeclared(Init(ms)) &&
     (Last(ms).role.Tool? && Last(ms).toolCallId != "" ==> Last(ms).toolCallId in Declared(Init(ms))))
  }

  function LegalStart(ms: seq<Message>): (start: nat)
    ensures start <= |ms|
  {
    if ms == [] then 0
    else
      var start := LegalStart(Init(ms));
      var m := Last(ms);
      if m.role.Tool? && m.toolCallId != "" && m.toolCallId !in Declared(Init(ms)[start..]) then |ms| else start
  }

  lemma {:induction false} DropSnoc(ms: seq<Message>, t: nat)
    requires t < |ms|
    ensures ms[t..] != [] && Init(ms[t..]) == Init(ms)[t..] && Last(ms[t..]) == Last(ms)
  {
  }

  /** Dropping a longer prefix can only lose declarations. */
  lemma {:induction false} DeclaredOfSuffix(ms: seq<Message>, s: nat, t: nat)
    requires s <= t <= |ms|
    ensures Declared(ms[t..]) <= Declared(ms[s..])
  {
    assert ms[s..] == ms[s..t] + ms[t..];
    DeclaredConcat(ms[s..t], ms[t..]);
  }

  /** The scan finds the least start from which no result with an id is orphaned. */
  lemma {:induction false} LegalStartIsLeast(ms: seq<Message>)
    ensures IdsDeclared(ms[LegalStart(ms)..])
    ensures forall t | 0 <= t < LegalStart(ms) :: !IdsDeclared(ms[t..])
  {
    if ms != [] {
      LegalStartIsLeast(Init(ms));
      var start := LegalStart(Init(ms));
      if start < |ms| { DropSnoc(ms, start); }
      forall t | 0 <= t < LegalStart(ms) ensures !IdsDeclared(ms[t..]) {
        DropSnoc(ms, t);
        if start <= t { DeclaredOfSuffix(Init(ms), start, t); }
      }
    }
  }

  // ------------------------------------------------------------- the longest that fits

  function Cost(config: Config, ms: seq<Message>): nat {
    if ms == [] then 0 else Cost(config, ms[1..]) + config.messageTokens(ms[0])
  }

  /** The cost is the sum of the messages' estimates. */
  lemma {:induction false} CostAddsUp(config: Config, a: seq<Message>, b: seq<Message>)
    ensures Cost(config, a + b) == Cost(config, a) + Cost(config, b)
    ensures a != [] ==> Cost(config, a[..1]) == config.messageTokens(a[0])
    decreases |a|
  {
    if a == [] {
      assert a + b == b;
    } else {
      CostAddsUp(config, a[1..], b);
      assert (a + b)[1..] == a[1..] + b && (a + b)[0] == a[0];
      assert a[..1][1..] == [];
    }
  }

  /** Where the backwards walk stops when it has kept everything from `i` on. */
  function KeptFrom(config: Config, ms: seq<Message>, budget: nat, i: nat): (start: nat)
    requires i <= |ms|
    ensures start <= i
  {
    if i == 0 then 0
    else if i < |ms| && Cost(config, ms[i..]) + config.messageTokens(ms[i - 1]) > budget then i
    else KeptFrom(config, ms, budget, i - 1)
  }

  predicate Fits(config: Config, ms: seq<Message>, budget: nat, i: nat)
    requires i <= |ms|
  {
    Cost(config, ms[i..]) <= budget
  }

  /** The walk keeps the longest suffix that fits, or the last message alone when
      not even that fits. */
  lemma {:induction false} KeptFromIsLongest(config: Config, ms: seq<Message>, budget: nat, i: nat)
    requires i <= |ms| && (i >= |ms| - 1 || Fits(config, ms, budget, i))
    ensures var k := KeptFrom(config, ms, budget, i);
            && (ms != [] ==> k < |ms|)
            && (k >= |ms| - 1 || Fits(config, ms, budget, k))
            && (k > 0 ==> !Fits(config, ms, budget, k - 1))
  {
    if i > 0 {
      assert ms[i - 1..][1..] == ms[i..] && ms[i - 1..][0] == ms[i - 1];
      if i < |ms| && Cost(config, ms[i..]) + config.messageTokens(ms[i - 1]) > budget {
      } else {
        KeptFromIsLongest(config, ms, budget, i - 1);
      }
    }
  }

  // ------------------------------------------------------------------- user messages

  function FirstUser(ms: seq<Message>): (r: Option<nat>)
    ensures r.Some? ==> r.value < |ms| && ms[r.value].role.User? && forall i | 0 <= i < r.value :: !ms[i].role.User?
    ensures r.None? ==> forall i | 0 <= i < |ms| :: !ms[i].role.User?
  {
    if ms == [] then None
    else
      var earlier := FirstUser(Init(ms));
      if earlier.Some? then earlier else if Last(ms).role.User? then Some(|ms| - 1) else None
  }

  function LastUser(ms: seq<Message>): (r: Option<nat>)
    ensures r.Some? ==> r.value < |ms| && ms[r.value].role.User? && forall i | r.value < i < |ms| :: !ms[i].role.User?
    ensures r.None? ==> forall i | 0 <= i < |ms| :: !ms[i].role.User?
  {
    if ms == [] then None
    else if Last(ms).role.User? then Some(|ms| - 1)
    else LastUser(Init(ms))
  }

  // --------------------------------------------------------------------- the suffix

  function Max(a: int, b: int): int {
    if a > b then a else b
  }

  function RemainingBudget(config: Config, systems: seq<Message>): nat {
    Max(0, InputBudget(config) - Max(Cost(config, systems), config.promptTokens(systems)))
  }

  /** Where the kept suffix starts before orphaned results are cut off its front:
      at its first user message, else at the last user message of all, else as is. */
  function UserStart(rest: seq<Message>, kept: nat): (u: nat)
    requires kept <= |rest|
    ensures u <= |rest|
  {
    var first := FirstUser(rest[kept..]);
    var last := LastUser(rest);
    if first.Some? then kept + first.value
    else if last.Some? then last.value
    else kept
  }

  function SnipStart(config: Config, rest: seq<Message>, budget: nat): (s: nat)
    ensures s <= |rest|
  {
    var u := UserStart(rest, KeptFrom(config, rest, budget, |rest|));
    u + LegalStart(rest[u..])
  }

  function LegalTail(rest: seq<Message>, kept: nat): seq<Message>
    requires kept <= |rest|
  {
    var tail := rest[UserStart(rest, kept)..];
    tail[LegalStart(tail)..]
  }

  lemma {:induction false} LegalTailIsSuffix(config: Config, rest: seq<Message>, budget: nat)
    ensures LegalTail(rest, KeptFrom(config, rest, budget, |rest|)) == rest[SnipStart(config, rest, budget)..]
  {
    var u := UserStart(rest, KeptFrom(config, rest, budget, |rest|));
    assert rest[u..][LegalStart(rest[u..])..] == rest[u + LegalStart(rest[u..])..];
  }

  predicate SnipFires(config: Config, ms: seq<Message>) {
    && ms != [] && config.contextWindowTokens != 0 && InputBudget(config) > 0
    && config.promptTokens(ms) > InputBudget(config)
    && NonSystems(ms) != []
  }

  function Snipped(config: Config, ms: seq<Message>): seq<Message> {
    if !SnipFires(config, ms) then ms
    else
      var systems, rest := Systems(ms), NonSystems(ms);
      systems + LegalTail(rest, KeptFrom(config, rest, RemainingBudget(config, systems), |rest|))
  }

  // ------------------------------------------------------------- what the suffix is

  lemma {:induction false} CostOfSuffix(config: Config, ms: seq<Message>, s: nat)
    requires s <= |ms|
    ensures Cost(config, ms[s..]) <= Cost(config, ms)
  {
    if s > 0 {
      assert ms[1..][s - 1..] == ms[s..];
      CostOfSuffix(config, ms[1..], s - 1);
    } else {
      assert ms[0..] == ms;
    }
  }

  lemma {:induction false} FitsFurther(config: Config, ms: seq<Message>, budget: nat, k: nat, s: nat)
    requires k <= s <= |ms| && Fits(config, ms, budget, k)
    ensures Fits(config, ms, budget, s)
  {
    assert ms[k..][s - k..] == ms[s..];
    CostOfSuffix(config, ms[k..], s - k);
  }

  lemma {:induction false} SnippedSplits(config: Config, ms: seq<Message>)
    requires SnipFires(config, ms)
    ensures var rest := NonSystems(ms);
            Snipped(config, ms) ==
            Systems(ms) + rest[SnipStart(config, rest, RemainingBudget(config, Systems(ms)))..]
  {
    LegalTailIsSuffix(config, NonSystems(ms), RemainingBudget(config, Systems(ms)));
  }

  /** The suffix fits the budget, or is part of the last message alone, or starts no
      earlier than the last user message. No result in it is orphaned. */
  lemma {:induction false} SnipIsBounded(config: Config, rest: seq<Message>, budget: nat)
    requires rest != []
    ensures var s := SnipStart(config, rest, budget);
            && (Fits(config, rest, budget, s) || s >= |rest| - 1 ||
                (LastUser(rest).Some? && s >= LastUser(rest).value))
            && IdsDeclared(rest[s..])
  {
    var k := KeptFrom(config, rest, budget, |rest|);
    var u := UserStart(rest, k);
    var s := SnipStart(config, rest, budget);
    KeptFromIsLongest(config, rest, budget, |rest|);
    LegalStartIsLeast(rest[u..]);
    LegalTailIsSuffix(config, rest, budget);
    if k <= s && k < |rest| - 1 {
      FitsFurther(config, rest, budget, k, s);
    } else if s < k {
      assert FirstUser(rest[k..]).None? && LastUser(rest).Some?;
    }
  }

  /** The user message being answered survives whenever the results after it belong
      to calls after it. */
  lemma {:induction false} LastUserSurvives(config: Config, rest: seq<Message>, budget: nat)
    requires LastUser(rest).Some? && IdsDeclared(rest[LastUser(rest).value..])
    ensures SnipStart(config, rest, budget) <= LastUser(rest).value
  {
    var k := KeptFrom(config, rest, budget, |rest|);
    var u, last := UserStart(rest, k), LastUser(rest).value;
    if FirstUser(rest[k..]).Some? {
      assert rest[u].role.User?;
    }
    LegalStartIsLeast(rest[u..]);
    assert rest[u..][last - u..] == rest[last..];
  }

  // ------------------------------------------------------------------ the whole request

  /** Nothing is snipped without a window and a budget, or from a request that fits. */
  lemma {:induction false} WhatFitsIsNotSnipped(config: Config, ms: seq<Message>)
    requires config.contextWindowTokens == 0 || InputBudget(config) == 0
          || config.promptTokens(ms) <= InputBudget(config)
    ensures Snipped(config, ms) == ms
  {
  }

  /** Otherwise all system messages are kept, and of the rest a suffix, from `s` on; together
      they cost no more than the budget, by either estimate of the former, unless the suffix
      costs nothing, is at most the last message, or starts at or behind the last user
      message. */
  lemma {:induction false} SnipFitsTheBudget(config: Config, ms: seq<Message>) returns (s: nat)
    requires config.contextWindowTokens != 0 && InputBudget(config) > 0
    requires config.promptTokens(ms) > InputBudget(config) && NonSystems(ms) != []
    ensures s <= |NonSystems(ms)| && Snipped(config, ms) == Systems(ms) + NonSystems(ms)[s..]
    ensures
      var systems, rest := Systems(ms), NonSystems(ms);
      || (Cost(config, systems) + Cost(config, rest[s..]) <= InputBudget(config)
          && config.promptTokens(systems) + Cost(config, rest[s..]) <= InputBudget(config))
      || Cost(config, rest[s..]) == 0
      || s >= |rest| - 1
      || exists u :: 0 <= u <= s && u < |rest| && rest[u].role.User?
           && forall i :: u < i < |rest| ==> !rest[i].role.User?
  {
    var rest, budget := NonSystems(ms), RemainingBudget(config, Systems(ms));
    assert ms != [];
    s := SnipStart(config, rest, budget);
    SnippedSplits(config, ms);
    SnipIsBounded(config, rest, budget);
  }

  /** Where the suffix starts: `u` is the first user message from `k` on, or the last of all if
      there is none, or `k` without any. */
  ghost predicate AlignedToUser(rest: seq<Message>, k: nat, u: nat) {
    if exists i :: k <= i < |rest| && rest[i].role.User? then
      k <= u < |rest| && rest[u].role.User? && forall i :: k <= i < u ==> !rest[i].role.User?
    else if exists i :: 0 <= i < |rest| && rest[i].role.User? then
      u < |rest| && rest[u].role.User? && forall i :: u < i < |rest| ==> !rest[i].role.User?
    else u == k
  }

  /** That is where the program starts. */
  lemma {:induction false} UserStartIsAligned(rest: seq<Message>, k: nat)
    requires k <= |rest|
    ensures AlignedToUser(rest, k, UserStart(rest, k))
  {
    assert forall i :: k <= i < |rest| ==> rest[k..][i - k] == rest[i];
  }

  /** From `s` on no result lacks its call; from any earlier start behind `u` some result does. */
  predicate FirstWithoutOrphans(rest: seq<Message>, u: nat, s: nat) {
    u <= s <= |rest| && IdsDeclared(rest[s..]) && forall t :: u <= t < s ==> !IdsDeclared(rest[t..])
  }

  lemma {:induction false} LegalStartIsFirst(rest: seq<Message>, u: nat)
    requires u <= |rest|
    ensures FirstWithoutOrphans(rest, u, u + LegalStart(rest[u..]))
  {
    var s := u + LegalStart(rest[u..]);
    LegalStartIsLeast(rest[u..]);
    assert rest[u..][s - u..] == rest[s..];
    forall t | u <= t < s ensures !IdsDeclared(rest[t..]) { assert rest[u..][t - u..] == rest[t..]; }
  }

  /** Everything that fits is kept, and the start is moved only where it has to be: from `k` on
      one message more would not fit by one of the estimates; `u` is aligned with that, and the
      suffix starts at `s`, behind what leaves a result without its call. */
  lemma {:induction false} SnipKeepsWhatItCan(config: Config, ms: seq<Message>) returns (k: nat, u: nat, s: nat)
    requires config.contextWindowTokens != 0 && InputBudget(config) > 0
    requires config.promptTokens(ms) > InputBudget(config) && NonSystems(ms) != []
    ensures k < |NonSystems(ms)| && u == UserStart(NonSystems(ms), k) && s == u + LegalStart(NonSystems(ms)[u..])
    ensures s <= |NonSystems(ms)| && Snipped(config, ms) == Systems(ms) + NonSystems(ms)[s..]
    ensures k > 0 ==>
      || Cost(config, Systems(ms)) + Cost(config, NonSystems(ms)[k - 1..]) > InputBudget(config)
      || config.promptTokens(Systems(ms)) + Cost(config, NonSystems(ms)[k - 1..]) > InputBudget(config)
  {
    assert ms != [];
    k := WalkKeepsWhatItCan(config, Systems(ms), NonSystems(ms));
    u := UserStart(NonSystems(ms), k);
    s := u + LegalStart(NonSystems(ms)[u..]);
    SnippedSplits(config, ms);
  }

  lemma {:induction false} WalkKeepsWhatItCan(config: Config, systems: seq<Message>, rest: seq<Message>)
      returns (k: nat)
    requires rest != [] && InputBudget(config) > 0
    ensures k < |rest| && k == KeptFrom(config, rest, RemainingBudget(config, systems), |rest|)
    ensures k > 0 ==>
      || Cost(config, systems) + Cost(config, rest[k - 1..]) > InputBudget(config)
      || config.promptTokens(systems) + Cost(config, rest[k - 1..]) > InputBudget(config)
  {
    var budget := RemainingBudget(config, systems);
    k := KeptFrom(config, rest, budget, |rest|);
    KeptFromIsLongest(config, rest, budget, |rest|);
    assert k > 0 ==> Cost(config, rest[k - 1..]) > budget;
  }
}
