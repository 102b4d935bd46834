/**
 * Recovery of a persisted compaction checkpoint.  The caller saves the upgraded
 * checkpoint, then swaps the messages, and may crash before, between or after.
 */
module CheckpointRecovery {
  import opened CompactionTypes
  import opened JobCommands

  datatype CheckpointStatus = Started | Summarized | Materialized

  /**
   * `summary_ready` is `Summarized` here and `merged` is `Materialized`.  A prefix hash is the prefix itself; an
   * empty ID or summary counts as absent.
   */
  datatype Checkpoint = Checkpoint(
    status: CheckpointStatus,
    prefixHash: Option<seq<Message>>,
    prefixMessageId: Option<string>,
    summary: Option<string>,
    projection: Option<string>,
    context: Option<ProjectContext>,
    replacement: Option<Message>
  )

  datatype Verdict = Nothing | Retry | Invalid | Applied

  datatype Recovery = Recovery(verdict: Verdict, messages: seq<Message>, upgrade: Option<Checkpoint>)

  /** What one recovery finds: the live workspace, the Run and its Project Context, and a random ID. */
  datatype Attempt = Attempt(live: string, runId: Option<string>, context: Option<ProjectContext>, freshId: string)

  /** Summary, projection, context, message ID and Run to the message that replaces the prefix. */
  type Composer = (string, string, Option<ProjectContext>, string, Option<string>) -> Message

  predicate Named(id: Option<string>) {
    id.Some? && id.value != ""
  }

  /** Exact identity when both have an ID, otherwise equal content. */
  predicate SamePersisted(messages: seq<Message>, replacement: Message) {
    messages != []
    && if Named(replacement.messageId) && Named(messages[0].messageId)
       then replacement.messageId == messages[0].messageId
       else messages[0] == replacement
  }

  function WithProjection(context: Option<ProjectContext>, projection: string, advance: bool): Option<ProjectContext> {
    if context.None? then None
    else Some(context.value.(epoch := context.value.epoch + (if advance then 1 else 0), projection := projection))
  }

  function UpgradeReplacement(c: Checkpoint, context: Option<ProjectContext>): Option<Checkpoint> {
    var backfilled :=
      if c.context.Some? then c.context
      else if context.Some? then
        WithProjection(context, if c.projection.Some? then c.projection.value else context.value.projection, true)
      else None;
    if !c.status.Summarized? && !(c.context.None? && backfilled.Some?) then None
    else if backfilled.Some? then
      Some(c.(status := Materialized, context := backfilled,
              projection := if c.projection.Some? then c.projection else Some(backfilled.value.projection)))
    else Some(c.(status := Materialized))
  }

  /** The first message carrying the ID, or -1. */
  function FindMessage(messages: seq<Message>, id: string): (i: int)
    ensures -1 <= i < |messages|
    ensures i >= 0 ==> messages[i].messageId == Some(id)
    ensures forall k :: 0 <= k < (if i >= 0 then i else |messages|) ==> messages[k].messageId != Some(id)
  {
    if messages == [] then -1
    else
      var i := FindMessage(messages[..|messages| - 1], id);
      if i >= 0 then i
      else if messages[|messages| - 1].messageId == Some(id) then |messages| - 1
      else -1
  }

  function Boundary(c: Checkpoint, messages: seq<Message>): int {
    if Named(c.prefixMessageId) then FindMessage(messages, c.prefixMessageId.value) else |messages| - 1
  }

  predicate Reusable(c: Checkpoint) {
    !c.status.Started? && c.summary.Some? && !Blank(c.summary.value)
  }

  /** The messages begin with exactly the prefix that was summarized. */
  predicate PrefixStands(c: Checkpoint, messages: seq<Message>) {
    var boundary := Boundary(c, messages);
    && 0 <= boundary < |messages|
    && (c.prefixHash.Some? ==> messages[..boundary + 1] == c.prefixHash.value)
  }

  /** A legacy checkpoint with its replacement composed and its context frozen. */
  function Materialize(c: Checkpoint, a: Attempt, compose: Composer): Checkpoint
    requires c.summary.Some?
  {
    var projection :=
      if c.context.Some? then c.context.value.projection
      else if c.projection.Some? then c.projection.value
      else a.live;
    var context := WithProjection(if c.context.Some? then c.context else a.context, projection, c.context.None?);
    c.(status := Materialized, projection := Some(projection),
       context := if context.Some? then context else c.context,
       replacement := Some(compose(c.summary.value, projection, context, a.freshId, a.runId)))
  }

  /** `recoverCompactionCheckpoint`. */
  function Recover(checkpoint: Option<Checkpoint>, messages: seq<Message>, a: Attempt, compose: Composer): Recovery {
    if checkpoint.None? then Recovery(Nothing, messages, None)
    else
      var c := checkpoint.value;
      if c.status.Started? then Recovery(Retry, messages, None)
      else if !Reusable(c) then Recovery(Invalid, messages, None)
      else if c.replacement.Some? && SamePersisted(messages, c.replacement.value) then
        Recovery(Applied, messages, UpgradeReplacement(c, a.context))
      else if !PrefixStands(c, messages) then Recovery(Invalid, messages, None)
      else
        var tail := messages[Boundary(c, messages) + 1..];
        if c.replacement.Some? then
          Recovery(Applied, [c.replacement.value] + tail, UpgradeReplacement(c, a.context))
        else
          var m := Materialize(c, a, compose);
          Recovery(Applied, [m.replacement.value] + tail, Some(m))
  }

  // -------------------------------------------------------------- one recovery

  /** The checkpoint the caller goes on with once it has saved an upgrade. */
  function Saved(c: Checkpoint, r: Recovery): Checkpoint {
    if r.upgrade.Some? then r.upgrade.value else c
  }

  /**
   * Only an applied recovery touches the messages, and then exactly the prefix
   * it was frozen over gives way to the saved replacement; the tail stays.
   */
  lemma RecoverReplacesPrefixOnly(c: Checkpoint, messages: seq<Message>, a: Attempt, compose: Composer)
    ensures var r := Recover(Some(c), messages, a, compose);
      && (!r.verdict.Applied? ==> r.messages == messages && r.upgrade.None?)
      && (r.verdict.Applied? <==>
            Reusable(c) && (PrefixStands(c, messages)
                            || (c.replacement.Some? && SamePersisted(messages, c.replacement.value))))
      && (r.verdict.Applied? ==> Saved(c, r).replacement.Some?)
      && (r.verdict.Applied? && r.messages != messages ==>
            PrefixStands(c, messages)
            && r.messages == [Saved(c, r).replacement.value] + messages[Boundary(c, messages) + 1..])
      && (r.verdict.Applied? && c.replacement.Some? ==> Saved(c, r).replacement == c.replacement)
  {
  }

  /** A context already frozen is never re-versioned; one captured here advances by exactly one. */
  lemma EpochAdvancesOnCapture(c: Checkpoint, messages: seq<Message>, a: Attempt, compose: Composer)
    requires Recover(Some(c), messages, a, compose).verdict.Applied?
    ensures var k := Saved(c, Recover(Some(c), messages, a, compose));
      && (c.context.Some? ==> k.context == c.context)
      && (c.context.None? && a.context.Some? ==>
            k.context.Some? && k.context.value == a.context.value.(epoch := a.context.value.epoch + 1,
                                                                   projection := k.context.value.projection))
      && (c.context.None? && a.context.None? ==> k.context.None?)
      && (k.context.Some? && c.context.None? ==> k.projection == Some(k.context.value.projection))
  {
  }

  /**
   * What stands in for the prefix.  A saved replacement is used as it is; otherwise the message is composed of the
   * checkpoint's summary and of the projection and context that are saved with it.  The projection is the frozen
   * context's, else the checkpoint's, else the live one, or with a saved replacement that of the context found now.
   */
  lemma RecoveredMessage(c: Checkpoint, messages: seq<Message>, a: Attempt, compose: Composer)
    requires Recover(Some(c), messages, a, compose).verdict.Applied?
    ensures var r := Recover(Some(c), messages, a, compose);
      var k := Saved(c, r);
      && r.messages != [] && c.summary.Some? && k.summary == c.summary
      && k.prefixHash == c.prefixHash && k.prefixMessageId == c.prefixMessageId
      && (c.replacement.Some? ==> r.messages == messages || r.messages[0] == c.replacement.value)
      && (c.replacement.Some? && c.context.None? && a.context.Some? ==>
            && k.context.Some? && k.projection == Some(k.context.value.projection)
            && k.context.value.projection
               == if c.projection.Some? then c.projection.value else a.context.value.projection)
      && (c.replacement.None? ==>
            && k.projection == Some(if c.context.Some? then c.context.value.projection
                                    else if c.projection.Some? then c.projection.value else a.live)
            && r.messages[0] == compose(c.summary.value, k.projection.value, k.context, a.freshId, a.runId)
            && k.replacement == Some(r.messages[0]) && k.status.Materialized?)
  {
  }

  // ------------------------------------------------------- over crash and retry

  datatype Crash = BeforeSave | AfterSave | AfterSwap

  datatype Disk = Disk(checkpoint: Checkpoint, messages: seq<Message>)

  /** What an attempt leaves behind when it crashes at that point. */
  function Left(d: Disk, r: Recovery, crash: Crash): Disk {
    match crash
    case BeforeSave => d
    case AfterSave => d.(checkpoint := Saved(d.checkpoint, r))
    case AfterSwap => Disk(Saved(d.checkpoint, r), r.messages)
  }

  function Retried(d: Disk, tries: seq<(Attempt, Crash)>, compose: Composer): Disk
    decreases |tries|
  {
    if tries == [] then d
    else
      var before := Retried(d, tries[..|tries| - 1], compose);
      var (a, crash) := tries[|tries| - 1];
      Left(before, Recover(Some(before.checkpoint), before.messages, a, compose), crash)
  }

  /** A composed message carries the ID it was given, and that ID is new to the context. */
  ghost predicate Composes(compose: Composer, a: Attempt, messages: seq<Message>) {
    && a.freshId != ""
    && (forall i :: 0 <= i < |messages| ==> messages[i].messageId != Some(a.freshId))
    && forall summary: string, projection: string, context: Option<ProjectContext> ::
         compose(summary, projection, context, a.freshId, a.runId).messageId == Some(a.freshId)
  }

  /** From here on every recovery gives `result`, whether or not the swap has happened. */
  predicate Settled(d: Disk, messages: seq<Message>, result: seq<Message>) {
    var c := d.checkpoint;
    && Reusable(c) && c.replacement.Some?
    && (d.messages == messages || d.messages == result)
    && result != [] && SamePersisted(result, c.replacement.value)
    && (result == messages
        || (!SamePersisted(messages, c.replacement.value) && PrefixStands(c, messages)
            && result == [c.replacement.value] + messages[Boundary(c, messages) + 1..]))
  }

  lemma UpgradeKeeps(c: Checkpoint, context: Option<ProjectContext>)
    ensures var k := UpgradeReplacement(c, context);
      k.Some? ==>
        && k.value.replacement == c.replacement && k.value.summary == c.summary && !k.value.status.Started?
        && k.value.prefixHash == c.prefixHash && k.value.prefixMessageId == c.prefixMessageId
  {
  }

  lemma SettledGives(d: Disk, messages: seq<Message>, result: seq<Message>, a: Attempt, crash: Crash, compose: Composer)
    requires Settled(d, messages, result)
    ensures var r := Recover(Some(d.checkpoint), d.messages, a, compose);
      && r.verdict.Applied? && r.messages == result
      && Settled(Left(d, r, crash), messages, result)
      && (d.checkpoint.context.Some? ==> Left(d, r, crash).checkpoint.context == d.checkpoint.context)
  {
    UpgradeKeeps(d.checkpoint, a.context);
    hide Blank;
  }

  lemma FirstSaveSettles(d: Disk, a: Attempt, crash: Crash, compose: Composer)
    requires Recover(Some(d.checkpoint), d.messages, a, compose).verdict.Applied?
    requires Composes(compose, a, d.messages) && !crash.BeforeSave?
    ensures var r := Recover(Some(d.checkpoint), d.messages, a, compose);
      Settled(Left(d, r, crash), d.messages, r.messages)
  {
    UpgradeKeeps(d.checkpoint, a.context);
    hide Blank;
  }

  /**
   * Once one recovery's checkpoint is saved, any number of further recoveries,
   * crashing anywhere, with other workspaces, Runs and contexts, all give its
   * message list, and a captured Project Context is never versioned again.
   */
  lemma {:induction false} RecoveryIsIdempotent(d: Disk, a: Attempt, crash: Crash, tries: seq<(Attempt, Crash)>,
                                                last: Attempt, compose: Composer)
    requires Recover(Some(d.checkpoint), d.messages, a, compose).verdict.Applied?
    requires Composes(compose, a, d.messages) && !crash.BeforeSave?
    ensures var r := Recover(Some(d.checkpoint), d.messages, a, compose);
      var now := Retried(Left(d, r, crash), tries, compose);
      && Settled(now, d.messages, r.messages)
      && Recover(Some(now.checkpoint), now.messages, last, compose).verdict.Applied?
      && Recover(Some(now.checkpoint), now.messages, last, compose).messages == r.messages
      && (Saved(d.checkpoint, r).context.Some? ==> now.checkpoint.context == Saved(d.checkpoint, r).context)
    decreases |tries|
  {
    hide Recover, Settled, Left;
    var r := Recover(Some(d.checkpoint), d.messages, a, compose);
    var start := Left(d, r, crash);
    FirstSaveSettles(d, a, crash, compose);
    LeftSaved(d, r, crash);
    if tries != [] {
      var front := tries[..|tries| - 1];
      var (b, c) := tries[|tries| - 1];
      RecoveryIsIdempotent(d, a, crash, front, last, compose);
      SettledGives(Retried(start, front, compose), d.messages, r.messages, b, c, compose);
    }
    SettledGives(Retried(start, tries, compose), d.messages, r.messages, last, AfterSwap, compose);
  }

  lemma LeftSaved(d: Disk, r: Recovery, crash: Crash)
    requires !crash.BeforeSave?
    ensures Left(d, r, crash).checkpoint == Saved(d.checkpoint, r)
  {
  }

  /** A recovery leaves a frozen context as it is, wherever it crashes. */
  lemma FrozenStays(d: Disk, a: Attempt, crash: Crash, compose: Composer)
    requires d.checkpoint.context.Some?
    ensures Left(d, Recover(Some(d.checkpoint), d.messages, a, compose), crash).checkpoint.context
            == d.checkpoint.context
  {
    RecoverReplacesPrefixOnly(d.checkpoint, d.messages, a, compose);
    if Recover(Some(d.checkpoint), d.messages, a, compose).verdict.Applied? {
      EpochAdvancesOnCapture(d.checkpoint, d.messages, a, compose);
    }
    hide Recover;
  }

  /**
   * Over any run of recoveries from any start, the context is captured, and its epoch advanced, at most once:
   * what one point of the run has frozen, every later point still has.
   */
  lemma {:induction false} ContextIsCapturedOnce(d: Disk, tries: seq<(Attempt, Crash)>, compose: Composer,
                                                 i: nat, k: nat)
    requires i <= k <= |tries|
    requires Retried(d, tries[..i], compose).checkpoint.context.Some?
    ensures Retried(d, tries[..k], compose).checkpoint.context == Retried(d, tries[..i], compose).checkpoint.context
    decreases k
  {
    hide Recover, Left;
    if i < k {
      ContextIsCapturedOnce(d, tries, compose, i, k - 1);
      assert tries[..k][..k - 1] == tries[..k - 1];
      var (a, crash) := tries[k - 1];
      FrozenStays(Retried(d, tries[..k - 1], compose), a, crash, compose);
    }
  }

  // ------------------------------------------------------------ appended tails

  /** Messages appended after the frozen prefix are kept, when the checkpoint names its boundary. */
  lemma AppendsSurvive(c: Checkpoint, messages: seq<Message>, more: seq<Message>, a: Attempt, compose: Composer)
    requires Named(c.prefixMessageId) && messages != []
    requires Recover(Some(c), messages, a, compose).verdict.Applied?
    ensures var r, s := Recover(Some(c), messages, a, compose), Recover(Some(c), messages + more, a, compose);
      s.verdict.Applied? && s.messages == r.messages + more && s.upgrade == r.upgrade
  {
    hide Blank, UpgradeReplacement, PrefixStands, Boundary, Reusable, Materialize, SamePersisted;
    SameHead(messages, more);
    if PrefixStands(c, messages) {
      PrefixStays(c, messages, more);
    }
  }

  lemma SameHead(messages: seq<Message>, more: seq<Message>)
    requires messages != []
    ensures forall m: Message :: SamePersisted(messages + more, m) <==> SamePersisted(messages, m)
  {
    assert (messages + more)[0] == messages[0];
  }

  lemma PrefixStays(c: Checkpoint, messages: seq<Message>, more: seq<Message>)
    requires Named(c.prefixMessageId) && PrefixStands(c, messages)
    ensures PrefixStands(c, messages + more)
    ensures var b := Boundary(c, messages);
      0 <= b < |messages| && Boundary(c, messages + more) == b
      && (messages + more)[b + 1..] == messages[b + 1..] + more
  {
    FindStays(messages, more, c.prefixMessageId.value);
    var b := Boundary(c, messages);
    assert (messages + more)[..b + 1] == messages[..b + 1];
  }

  lemma FindStays(messages: seq<Message>, more: seq<Message>, id: string)
    requires FindMessage(messages, id) >= 0
    ensures FindMessage(messages + more, id) == FindMessage(messages, id)
  {
    var i := FindMessage(messages, id);
    forall k | 0 <= k <= i ensures (messages + more)[k] == messages[k] {
    }
  }

  /** The checkpoint takes every message it finds for its prefix and has nothing to compare them with. */
  predicate Unanchored(c: Checkpoint, messages: seq<Message>) {
    && !Named(c.prefixMessageId) && c.prefixHash.None?
    && !(c.replacement.Some? && SamePersisted(messages, c.replacement.value))
  }

  /**
   * What becomes of messages appended before an applicable recovery.  They are swallowed exactly when the checkpoint
   * is unanchored.  They make the recovery invalid, and stay with the rest of the history, exactly when the boundary
   * is only hashed and the swap is still to come.  Otherwise they follow the recovered messages.
   */
  lemma AppendsSwallowedExactlyWhen(c: Checkpoint, messages: seq<Message>, more: seq<Message>, a: Attempt,
                                    compose: Composer)
    requires messages != [] && more != []
    requires Recover(Some(c), messages, a, compose).verdict.Applied?
    ensures var r, s := Recover(Some(c), messages, a, compose), Recover(Some(c), messages + more, a, compose);
      && ((s.verdict.Applied? && s.messages != r.messages + more) <==> Unanchored(c, messages))
      && (!s.verdict.Applied? <==>
            !Named(c.prefixMessageId) && c.prefixHash.Some?
            && !(c.replacement.Some? && SamePersisted(messages, c.replacement.value)))
      && (!s.verdict.Applied? ==> s.verdict.Invalid? && s.messages == messages + more)
      && (Unanchored(c, messages) ==> s.messages == r.messages && |r.messages| == 1)
  {
    SameHead(messages, more);
    if Named(c.prefixMessageId) {
      AppendsSurvive(c, messages, more, a, compose);
    }
    hide Blank, UpgradeReplacement, Materialize, SamePersisted;
  }

  /** A checkpoint that names neither boundary nor hash takes everything for its prefix: an append is swallowed. */
  lemma UnnamedBoundarySwallowsAppends(compose: Composer)
    returns (c: Checkpoint, messages: seq<Message>, more: seq<Message>, a: Attempt)
    ensures c.prefixMessageId.None? && c.prefixHash.None? && more != []
    ensures var r, s := Recover(Some(c), messages, a, compose), Recover(Some(c), messages + more, a, compose);
      r.verdict.Applied? && s.verdict.Applied? && |s.messages| == |r.messages|
  {
    var m := Message(None, "m");
    c := Checkpoint(Summarized, None, None, Some("s"), None, None, None);
    messages, more, a := [m], [m], Attempt("", None, None, "id");
    assert "s"[0] !in " \n\t\r";
  }
}
