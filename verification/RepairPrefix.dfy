/**
 * The operator's choice of a prefix to compact: the longest one that fits a
 * summary request and splits no tool round.
 */
module RepairPrefix {

  datatype Block = ToolUse(id: string) | ToolResult(useId: string) | Other

  /** `chars` and `images` are what the token estimate counts of a message. */
  datatype RepairMessage = RepairMessage(content: seq<Block>, chars: nat, images: nat)

  /** One tool event; a message's uses come before its results. */
  datatype ToolEvent = Use(id: string) | Result(id: string)

  const IMAGE_TOKEN_BUDGET := 2000
  const REPAIR_COMPACTION_SAFETY_MARGIN_TOKENS := 12_000

  // ------------------------------------------------------------ tool histories

  function Uses(content: seq<Block>): seq<string> {
    if content == [] then []
    else
      var last := content[|content| - 1];
      Uses(content[..|content| - 1]) + if last.ToolUse? && last.id != "" then [last.id] else []
  }

  function Results(content: seq<Block>): seq<string> {
    if content == [] then []
    else
      var last := content[|content| - 1];
      Results(content[..|content| - 1]) + if last.ToolResult? && last.useId != "" then [last.useId] else []
  }

  function UseEvents(ids: seq<string>): seq<ToolEvent> {
    seq(|ids|, i requires 0 <= i < |ids| => Use(ids[i]))
  }

  function ResultEvents(ids: seq<string>): seq<ToolEvent> {
    seq(|ids|, i requires 0 <= i < |ids| => Result(ids[i]))
  }

  function EventsOf(m: RepairMessage): seq<ToolEvent> {
    UseEvents(Uses(m.content)) + ResultEvents(Results(m.content))
  }

  /** The tool events of a history, in the order they happened. */
  function History(messages: seq<RepairMessage>): seq<ToolEvent> {
    if messages == [] then []
    else History(messages[..|messages| - 1]) + EventsOf(messages[|messages| - 1])
  }

  function UseIds(es: seq<ToolEvent>): set<string> {
    set e <- es | e.Use? :: e.id
  }

  function ResultIds(es: seq<ToolEvent>): set<string> {
    set e <- es | e.Result? :: e.id
  }

  /** No use and no result is repeated, and no result comes before its use. */
  predicate Sound(es: seq<ToolEvent>) {
    && (forall i, k :: 0 <= i < k < |es| ==> es[i] != es[k])
    && (forall k :: 0 <= k < |es| && es[k].Result? ==> Use(es[k].id) in es[..k])
  }

  /** A sound history in which every use has its result. */
  predicate WellFormed(es: seq<ToolEvent>) {
    Sound(es) && UseIds(es) <= ResultIds(es)
  }

  /** A cut whose prefix closes exactly its own uses, none of which is answered in the tail. */
  predicate Safe(messages: seq<RepairMessage>, cut: int) {
    && 1 <= cut < |messages|
    && var prefix, tail := History(messages[..cut]), History(messages[cut..]);
    && UseIds(prefix) <= ResultIds(prefix) && UseIds(prefix) !! ResultIds(tail)
    && ResultIds(prefix) <= UseIds(prefix)
  }

  lemma {:induction false} HistorySplit(xs: seq<RepairMessage>, ys: seq<RepairMessage>)
    ensures History(xs + ys) == History(xs) + History(ys)
    decreases |ys|
  {
    hide EventsOf;
    if ys == [] {
      assert xs + ys == xs;
    } else {
      var front, last := ys[..|ys| - 1], EventsOf(ys[|ys| - 1]);
      assert (xs + ys)[..|xs + ys| - 1] == xs + front;
      HistorySplit(xs, front);
      assert History(xs) + History(front) + last == History(xs) + (History(front) + last);
    }
  }

  lemma SoundPrefix(xs: seq<ToolEvent>, ys: seq<ToolEvent>)
    requires Sound(xs + ys)
    ensures Sound(xs)
  {
    forall i, k | 0 <= i < k < |xs| ensures xs[i] != xs[k] {
      assert (xs + ys)[i] == xs[i] && (xs + ys)[k] == xs[k];
    }
    forall k | 0 <= k < |xs| && xs[k].Result? ensures Use(xs[k].id) in xs[..k] {
      assert (xs + ys)[k] == xs[k] && (xs + ys)[..k] == xs[..k];
    }
  }

  lemma SoundSnoc(es: seq<ToolEvent>, e: ToolEvent)
    requires Sound(es)
    ensures Sound(es + [e]) <==> e !in es && (e.Result? ==> Use(e.id) in es)
  {
    var all := es + [e];
    if e !in es && (e.Result? ==> Use(e.id) in es) {
      forall k | 0 <= k < |all| && all[k].Result? ensures Use(all[k].id) in all[..k] {
        assert all[..k] == es[..k];
        if k == |es| {
          assert es[..k] == es;
        } else {
          assert all[k] == es[k];
        }
      }
    }
    if Sound(all) {
      assert all[|es|] == e && all[..|es|] == es;
      forall i | 0 <= i < |es| ensures es[i] != e {
        assert all[i] == es[i];
      }
    }
  }

  lemma IdsSnoc(es: seq<ToolEvent>, e: ToolEvent)
    ensures UseIds(es + [e]) == UseIds(es) + if e.Use? then {e.id} else {}
    ensures ResultIds(es + [e]) == ResultIds(es) + if e.Result? then {e.id} else {}
  {
    assert forall x :: x in es + [e] <==> x in es || x == e;
  }

  lemma IdsConcat(xs: seq<ToolEvent>, ys: seq<ToolEvent>)
    ensures UseIds(xs + ys) == UseIds(xs) + UseIds(ys) && ResultIds(xs + ys) == ResultIds(xs) + ResultIds(ys)
  {
    assert forall x :: x in xs + ys <==> x in xs || x in ys;
  }

  lemma IdsMean(es: seq<ToolEvent>, id: string)
    ensures id in UseIds(es) <==> Use(id) in es
    ensures id in ResultIds(es) <==> Result(id) in es
  {
    if Use(id) in es {
      assert Use(id).id in UseIds(es);
    }
    if Result(id) in es {
      assert Result(id).id in ResultIds(es);
    }
  }

  lemma SoundClosesOnlyUses(es: seq<ToolEvent>)
    requires Sound(es)
    ensures ResultIds(es) <= UseIds(es)
  {
    forall id <- ResultIds(es) ensures id in UseIds(es) {
      IdsMean(es, id);
      var k :| 0 <= k < |es| && es[k] == Result(id);
      assert Use(id) in es[..k] && es[..k] <= es;
    }
  }

  lemma SoundTail(xs: seq<ToolEvent>, ys: seq<ToolEvent>)
    requires Sound(xs + ys) && UseIds(xs) !! ResultIds(ys)
    ensures Sound(ys)
  {
    var es := xs + ys;
    forall i, k | 0 <= i < k < |ys| ensures ys[i] != ys[k] {
      assert es[|xs| + i] == ys[i] && es[|xs| + k] == ys[k];
    }
    forall k | 0 <= k < |ys| && ys[k].Result? ensures Use(ys[k].id) in ys[..k] {
      var id := ys[k].id;
      assert es[|xs| + k] == ys[k] && es[..|xs| + k] == xs + ys[..k];
      IdsMean(ys, id);
      IdsMean(xs, id);
    }
  }

  /**
   * In a well-formed history a cut is safe exactly when no use before it has its
   * result after it, and exactly when both sides are well-formed by themselves.
   */
  lemma SafeSplit(messages: seq<RepairMessage>, cut: int)
    requires WellFormed(History(messages)) && 1 <= cut < |messages|
    ensures var prefix, tail := History(messages[..cut]), History(messages[cut..]);
      && (Safe(messages, cut) <==> UseIds(prefix) !! ResultIds(tail))
      && (Safe(messages, cut) <==> WellFormed(prefix) && WellFormed(tail))
  {
    hide UseIds, ResultIds, WellFormed, History;
    HistorySplit(messages[..cut], messages[cut..]);
    assert messages[..cut] + messages[cut..] == messages;
    SplitEvents(History(messages[..cut]), History(messages[cut..]));
  }

  lemma SplitEvents(xs: seq<ToolEvent>, ys: seq<ToolEvent>)
    requires WellFormed(xs + ys)
    ensures ResultIds(xs) <= UseIds(xs)
    ensures UseIds(xs) !! ResultIds(ys) ==> UseIds(xs) <= ResultIds(xs)
    ensures UseIds(xs) !! ResultIds(ys) <==> WellFormed(xs) && WellFormed(ys)
  {
    SoundPrefix(xs, ys);
    SoundClosesOnlyUses(xs);
    hide UseIds, ResultIds, Sound;
    if UseIds(xs) !! ResultIds(ys) {
      SoundTail(xs, ys);
      NothingCrosses(xs, ys);
    }
    if WellFormed(xs) && WellFormed(ys) {
      SoundClosesOnlyUses(ys);
      UsesDiffer(xs, ys);
    }
  }

  lemma NothingCrosses(xs: seq<ToolEvent>, ys: seq<ToolEvent>)
    requires WellFormed(xs + ys) && UseIds(xs) !! ResultIds(ys)
    ensures UseIds(xs) <= ResultIds(xs) && UseIds(ys) <= ResultIds(ys)
  {
    IdsConcat(xs, ys);
    SoundPrefix(xs, ys);
    SoundClosesOnlyUses(xs);
    UsesDiffer(xs, ys);
  }

  lemma UsesDiffer(xs: seq<ToolEvent>, ys: seq<ToolEvent>)
    requires Sound(xs + ys)
    ensures UseIds(xs) !! UseIds(ys)
  {
    forall id <- UseIds(xs) ensures id !in UseIds(ys) {
      IdsMean(xs, id);
      IdsMean(ys, id);
      var i :| 0 <= i < |xs| && xs[i] == Use(id);
      forall k | 0 <= k < |ys| ensures ys[k] != Use(id) {
        assert (xs + ys)[i] == xs[i] && (xs + ys)[|xs| + k] == ys[k];
      }
    }
  }

  // ---------------------------------------------------------- the validations

  /** `messageToolIds`. */
  method MessageToolIds(content: seq<Block>) returns (uses: seq<string>, results: seq<string>)
    ensures uses == Uses(content) && results == Results(content)
  {
    uses, results := [], [];
    var i := 0;
    while i < |content|
      invariant i <= |content| && uses == Uses(content[..i]) && results == Results(content[..i])
    {
      var block := content[i];
      assert content[..i + 1][..i] == content[..i];
      if block.ToolUse? && block.id != "" {
        uses := uses + [block.id];
      }
      if block.ToolResult? && block.useId != "" {
        results := results + [block.useId];
      }
      i := i + 1;
    }
    assert content[..|content|] == content;
  }

  /** `assertWellFormedRepairToolHistory`: it throws on exactly the histories that are not well-formed. */
  method CheckToolHistory(messages: seq<RepairMessage>) returns (ok: bool)
    ensures ok <==> WellFormed(History(messages))
  {
    hide Sound, UseIds, ResultIds, EventsOf;
    var seenUses, completedUses := {}, {};
    ghost var done: seq<ToolEvent> := [];
    EmptyHistory();
    var i := 0;
    assert messages[..0] == [];
    while i < |messages|
      invariant i <= |messages| && done == History(messages[..i])
      invariant Sound(done) && seenUses == UseIds(done) && completedUses == ResultIds(done)
    {
      assert messages[..i + 1][..i] == messages[..i];
      assert messages[..i + 1] + messages[i + 1..] == messages;
      HistorySplit(messages[..i + 1], messages[i + 1..]);
      var sound;
      sound, seenUses, completedUses := CheckMessage(done, messages[i], seenUses, completedUses);
      done := done + EventsOf(messages[i]);
      if !sound {
        if Sound(History(messages)) {
          SoundPrefix(done, History(messages[i + 1..]));
        }
        return false;
      }
      i := i + 1;
    }
    assert messages[..|messages|] == messages;
    ok := seenUses <= completedUses;
  }

  lemma EmptyHistory()
    ensures History([]) == [] && Sound([]) && UseIds([]) == {} && ResultIds([]) == {}
  {
  }

  /** One message of the check: its uses must be new, then its results must close open uses. */
  method CheckMessage(ghost done: seq<ToolEvent>, m: RepairMessage, seen: set<string>, completed: set<string>)
    returns (ok: bool, seenUses: set<string>, completedUses: set<string>)
    requires Sound(done) && seen == UseIds(done) && completed == ResultIds(done)
    ensures ok <==> Sound(done + EventsOf(m))
    ensures ok ==> seenUses == UseIds(done + EventsOf(m)) && completedUses == ResultIds(done + EventsOf(m))
  {
    var uses, results := MessageToolIds(m.content);
    seenUses, completedUses := seen, completed;
    hide Sound, UseIds, ResultIds, Uses, Results;
    ghost var now := done;
    var i := 0;
    assert done + UseEvents(uses[..0]) == done;
    while i < |uses|
      invariant i <= |uses| && now == done + UseEvents(uses[..i])
      invariant Sound(now) && seenUses == UseIds(now) && completedUses == ResultIds(now)
    {
      var id := uses[i];
      SoundSnoc(now, Use(id));
      IdsSnoc(now, Use(id));
      IdsMean(now, id);
      now := now + [Use(id)];
      assert now == done + UseEvents(uses[..i + 1]);
      if id in seenUses {
        assert done + EventsOf(m) == now + (UseEvents(uses[i + 1..]) + ResultEvents(results));
        if Sound(done + EventsOf(m)) {
          SoundPrefix(now, UseEvents(uses[i + 1..]) + ResultEvents(results));
        }
        return false, seenUses, completedUses;
      }
      seenUses := seenUses + {id};
      i := i + 1;
    }
    assert uses[..|uses|] == uses;
    ghost var used := now;
    var k := 0;
    assert used + ResultEvents(results[..0]) == used;
    while k < |results|
      invariant k <= |results| && now == used + ResultEvents(results[..k])
      invariant Sound(now) && seenUses == UseIds(now) && completedUses == ResultIds(now)
    {
      var id := results[k];
      SoundSnoc(now, Result(id));
      IdsSnoc(now, Result(id));
      IdsMean(now, id);
      now := now + [Result(id)];
      assert now == used + ResultEvents(results[..k + 1]);
      if id !in seenUses || id in completedUses {
        assert done + EventsOf(m) == now + ResultEvents(results[k + 1..]);
        if Sound(done + EventsOf(m)) {
          SoundPrefix(now, ResultEvents(results[k + 1..]));
        }
        return false, seenUses, completedUses;
      }
      completedUses := completedUses + {id};
      k := k + 1;
    }
    assert results[..|results|] == results;
    assert now == done + EventsOf(m);
    ok := true;
  }

  /** `isSafeRepairPrefixBoundary`. */
  method IsSafeBoundary(messages: seq<RepairMessage>, prefixLength: int) returns (safe: bool)
    ensures safe <==> Safe(messages, prefixLength)
  {
    if prefixLength < 1 || prefixLength >= |messages| {
      return false;
    }
    var prefixUses, prefixResults := CollectIds(messages[..prefixLength]);
    var _, tailResults := CollectIds(messages[prefixLength..]);
    safe := prefixUses <= prefixResults && prefixUses !! tailResults && prefixResults <= prefixUses;
  }

  method CollectIds(messages: seq<RepairMessage>) returns (uses: set<string>, results: set<string>)
    ensures uses == UseIds(History(messages)) && results == ResultIds(History(messages))
  {
    hide UseIds, ResultIds, EventsOf, History, Uses, Results;
    uses, results := {}, {};
    var i := 0;
    EmptyHistory();
    while i < |messages|
      invariant i <= |messages|
      invariant uses == UseIds(History(messages[..i])) && results == ResultIds(History(messages[..i]))
    {
      var u, r := MessageToolIds(messages[i].content);
      HistoryStep(messages, i);
      EventIds(messages[i]);
      IdsConcat(History(messages[..i]), EventsOf(messages[i]));
      uses, results := uses + (set id | id in u), results + (set id | id in r);
      i := i + 1;
    }
    assert messages[..|messages|] == messages;
  }

  lemma HistoryStep(messages: seq<RepairMessage>, i: nat)
    requires i < |messages|
    ensures History(messages[..i + 1]) == History(messages[..i]) + EventsOf(messages[i])
  {
    assert messages[..i + 1][..i] == messages[..i];
  }

  lemma EventIds(m: RepairMessage)
    ensures UseIds(EventsOf(m)) == (set id | id in Uses(m.content))
    ensures ResultIds(EventsOf(m)) == (set id | id in Results(m.content))
  {
    var u, r := Uses(m.content), Results(m.content);
    forall id ensures id in UseIds(EventsOf(m)) <==> id in u {
      IdsMean(EventsOf(m), id);
      if id in u {
        var i :| 0 <= i < |u| && u[i] == id;
        assert EventsOf(m)[i] == Use(id);
      }
    }
    forall id ensures id in ResultIds(EventsOf(m)) <==> id in r {
      IdsMean(EventsOf(m), id);
      if id in r {
        var i :| 0 <= i < |r| && r[i] == id;
        assert EventsOf(m)[|u| + i] == Result(id);
      }
    }
  }

  // ------------------------------------------------------------- the selection

  function Chars(messages: seq<RepairMessage>): nat {
    if messages == [] then 0 else Chars(messages[..|messages| - 1]) + messages[|messages| - 1].chars
  }

  function Images(messages: seq<RepairMessage>): nat {
    if messages == [] then 0 else Images(messages[..|messages| - 1]) + messages[|messages| - 1].images
  }

  /** `Math.round(chars / 3.5)` plus a fixed budget per image. */
  function EstimateTokens(messages: seq<RepairMessage>): nat {
    (4 * Chars(messages) + 7) / 14 + IMAGE_TOKEN_BUDGET * Images(messages)
  }

  function RequestTokens(messages: seq<RepairMessage>, instruction: nat, overhead: int): int {
    EstimateTokens(messages) + instruction + if overhead < 0 then 0 else overhead
  }

  datatype Capacity = Capacity(window: int, maxOutput: int, margin: int, instruction: nat, overhead: int)
  {
    function Limit(): int { window - maxOutput - margin }
    predicate Fits(messages: seq<RepairMessage>) { RequestTokens(messages, instruction, overhead) <= Limit() }
  }

  datatype Selection =
    | Selected(prefix: seq<RepairMessage>, tokens: int)
    | NoTail
    | MalformedHistory
    | NoCapacity
    | NoPrefixFits

  /** The candidates: safe cuts whose prefix fits the request. */
  predicate Candidate(messages: seq<RepairMessage>, capacity: Capacity, cut: int) {
    Safe(messages, cut) && capacity.Fits(messages[..cut])
  }

  lemma {:induction false} FitsShorter(messages: seq<RepairMessage>, capacity: Capacity, shorter: nat, longer: nat)
    requires shorter <= longer <= |messages| && capacity.Fits(messages[..longer])
    ensures capacity.Fits(messages[..shorter])
    decreases longer
  {
    if shorter < longer {
      var m := messages[..longer];
      assert m[..longer - 1] == messages[..longer - 1];
      assert Chars(m) >= Chars(m[..longer - 1]) && Images(m) >= Images(m[..longer - 1]);
      FitsShorter(messages, capacity, shorter, longer - 1);
    }
  }

  /**
   * `selectSafeRepairCompactionPrefix`: the longest prefix shorter than the
   * history that fits the request and is safe to cut; it fails only for the
   * reason it names, and on a well-formed history with capacity only when there
   * is no such prefix.
   */
  method SelectPrefix(messages: seq<RepairMessage>, capacity: Capacity) returns (r: Selection)
    ensures r.NoTail? <==> |messages| < 2
    ensures r.MalformedHistory? <==> |messages| >= 2 && !WellFormed(History(messages))
    ensures r.NoCapacity? <==> |messages| >= 2 && WellFormed(History(messages)) && capacity.Limit() <= 0
    ensures r.NoPrefixFits? ==> forall cut: int :: !Candidate(messages, capacity, cut)
    ensures r.Selected? ==>
      var cut := |r.prefix|;
      && r.prefix <= messages && Candidate(messages, capacity, cut)
      && (forall longer: int :: longer > cut ==> !Candidate(messages, capacity, longer))
      && WellFormed(History(r.prefix)) && WellFormed(History(messages[cut..]))
      && r.tokens == RequestTokens(r.prefix, capacity.instruction, capacity.overhead)
  {
    hide Safe, WellFormed, History, RequestTokens;
    if |messages| < 2 {
      return NoTail;
    }
    var wellFormed := CheckToolHistory(messages);
    if !wellFormed {
      return MalformedHistory;
    }
    if capacity.Limit() <= 0 {
      return NoCapacity;
    }
    var largestFitting := LargestFitting(messages, capacity);
    SafeIsProper(messages);
    var length := largestFitting;
    while length >= 1
      invariant 0 <= length <= largestFitting
      invariant forall cut: int :: cut > length ==> !Candidate(messages, capacity, cut)
    {
      var safe := IsSafeBoundary(messages, length);
      if safe {
        FitsShorter(messages, capacity, length, largestFitting);
        SafeSplit(messages, length);
        var prefix := messages[..length];
        return Selected(prefix, RequestTokens(prefix, capacity.instruction, capacity.overhead));
      }
      length := length - 1;
    }
    r := NoPrefixFits;
  }

  lemma SafeIsProper(messages: seq<RepairMessage>)
    ensures forall cut: int :: Safe(messages, cut) ==> 1 <= cut < |messages|
  {
  }

  /** The binary search: the longest proper prefix that fits, or 0. */
  method LargestFitting(messages: seq<RepairMessage>, capacity: Capacity) returns (largest: nat)
    requires |messages| >= 2
    ensures largest < |messages| && (largest > 0 ==> capacity.Fits(messages[..largest]))
    ensures forall longer :: largest < longer < |messages| ==> !capacity.Fits(messages[..longer])
  {
    hide RequestTokens;
    var low, high := 1, |messages| - 1;
    largest := 0;
    while low <= high
      invariant 1 <= low <= high + 1 <= |messages| && largest == low - 1
      invariant largest > 0 ==> capacity.Fits(messages[..largest])
      invariant forall longer :: high < longer < |messages| ==> !capacity.Fits(messages[..longer])
    {
      var middle := (low + high) / 2;
      if RequestTokens(messages[..middle], capacity.instruction, capacity.overhead) <= capacity.Limit() {
        largest := middle;
        low := middle + 1;
      } else {
        forall longer | middle <= longer < |messages| ensures !capacity.Fits(messages[..longer]) {
          if capacity.Fits(messages[..longer]) {
            FitsShorter(messages, capacity, middle, longer);
          }
        }
        high := middle - 1;
      }
    }
  }
}
