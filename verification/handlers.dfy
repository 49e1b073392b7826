/**
 * What each handler of index.js does to the disk and the signal log, as the sequence of
 * operations it completes: process startup, clearState, the staging mkdir at the start of
 * getPairingCode, the hand-off on `open`, and the four close actions. The outcome of each
 * filesystem call that can fail is a parameter.
 */
module Handlers {
  import opened Disk
  import opened Disconnect

  /** Every occurrence of a sent message is preceded by `before` in the journal. */
  predicate SendsFollow(ops: seq<Op>, before: Op) {
    forall i :: 0 <= i < |ops| && ops[i].Send? ==> before in ops[..i]
  }

  /** Startup: remove `auth` if present (a failure is swallowed), create `upload` if missing. */
  function StartupOps(d: Disk, removeOk: bool): seq<Op> {
    (if Auth in d && removeOk then [RemoveDir(Auth)] else []) +
    (if Upload !in d then [MakeDir(Upload)] else [])
  }

  /** clearState: fs.removeSync(sessionFolder). */
  function ClearStateOps(): seq<Op> {
    [RemoveDir(Auth)]
  }

  /** getPairingCode's first step: create `auth` if it does not exist. */
  function StagingOps(d: Disk): seq<Op> {
    if Auth in d then [] else [MakeDir(Auth)]
  }

  /**
   * The `open` branch after the key is drawn. The confirmation messages are sent outside
   * the try block, so a failed send ends the handler before any filesystem call. Inside the
   * try, a failed remove or move is swallowed and skips everything after it; a move from a
   * missing `auth` fails like any other move.
   */
  function HandOffOps(d: Disk, key: string, sendOk: bool, removeOk: bool, moveOk: bool): seq<Op> {
    var dest := SessionDir(key);
    if !sendOk || !removeOk then []
    else if !moveOk || Auth !in d then [RemoveDir(dest)]
    else [RemoveDir(dest), MoveDir(Auth, dest), Send(ResetMessage)]
  }

  /** The operations of each close action. A restart re-enters getPairingCode, whose first step is StagingOps. */
  function CloseOps(d: Disk, a: Action): seq<Op> {
    match a
    case Reset => [Send(ResetMessage)]
    case ClearAndReset => ClearStateOps() + [Send(ResetMessage)]
    case Restart => StagingOps(d)
    case FallbackReset => [Send(ResetMessage)]
  }

  /** Startup guarantees `upload`, removes `auth` unless the removal failed, and touches nothing else. */
  lemma StartupEffect(d: Disk, removeOk: bool)
    ensures var d' := Replay(d, StartupOps(d, removeOk));
      Upload in d' && (removeOk ==> Auth !in d') &&
      (Upload in d ==> d'[Upload] == d[Upload]) &&
      d' - {Auth, Upload} == d - {Auth, Upload} &&
      (!removeOk ==> d' - {Upload} == d - {Upload})
    ensures Signals(StartupOps(d, removeOk)) == []
  {
    var a: seq<Op> := if Auth in d && removeOk then [RemoveDir(Auth)] else [];
    var b: seq<Op> := if Upload !in d then [MakeDir(Upload)] else [];
    ReplayConcat(d, a, b);
    SignalsConcat(a, b);
    var d1 := Replay(d, a);
    if a != [] { ReplayOne(d, RemoveDir(Auth)); }
    if b != [] { ReplayOne(d1, MakeDir(Upload)); }
  }

  /** clearState leaves no `auth` folder and no other directory changes. */
  lemma ClearStateEffect(d: Disk)
    ensures Auth !in Replay(d, ClearStateOps())
    ensures Replay(d, ClearStateOps()) == d - {Auth}
    ensures Signals(ClearStateOps()) == []
  {
    ReplayOne(d, RemoveDir(Auth));
  }

  /** The staging step leaves `auth` present, keeps any files already in it, and touches nothing else. */
  lemma StagingEffect(d: Disk)
    ensures var d' := Replay(d, StagingOps(d));
      Auth in d' && d'[Auth] == (if Auth in d then d[Auth] else []) && d' - {Auth} == d - {Auth}
    ensures StagingOps(Replay(d, StagingOps(d))) == []
    ensures Signals(StagingOps(d)) == []
  {
    if Auth !in d { ReplayOne(d, MakeDir(Auth)); }
  }

  /** A completed hand-off: `upload/<key>` holds exactly the staged files, `auth` is gone, one reset. */
  lemma HandOffPersists(d: Disk, key: string, sendOk: bool, removeOk: bool, moveOk: bool)
    requires sendOk && removeOk && moveOk && Auth in d
    ensures var d' := Replay(d, HandOffOps(d, key, sendOk, removeOk, moveOk));
      SessionDir(key) in d' && d'[SessionDir(key)] == d[Auth] && Auth !in d' &&
      d' - {Auth, SessionDir(key)} == d - {Auth, SessionDir(key)}
    ensures Signals(HandOffOps(d, key, sendOk, removeOk, moveOk)) == [ResetMessage]
  {
    var dest := SessionDir(key);
    var d1 := Apply(d, RemoveDir(dest));
    var d2 := Apply(d1, MoveDir(Auth, dest));
    assert Replay(d2, [Send(ResetMessage)]) == d2 by { ReplayOne(d2, Send(ResetMessage)); }
    assert Signals([Send(ResetMessage)]) == [ResetMessage];
    assert Signals([MoveDir(Auth, dest), Send(ResetMessage)]) == [ResetMessage];
  }

  /** A hand-off that did not complete signals nothing and leaves the staged files where they were. */
  lemma HandOffFailureKeepsStaging(d: Disk, key: string, sendOk: bool, removeOk: bool, moveOk: bool)
    requires !(sendOk && removeOk && moveOk && Auth in d)
    ensures var d' := Replay(d, HandOffOps(d, key, sendOk, removeOk, moveOk));
      (Auth in d' <==> Auth in d) && (Auth in d ==> d'[Auth] == d[Auth]) &&
      d' - {SessionDir(key)} == d - {SessionDir(key)}
    ensures Signals(HandOffOps(d, key, sendOk, removeOk, moveOk)) == []
  {
    var ops := HandOffOps(d, key, sendOk, removeOk, moveOk);
    if ops != [] {
      ReplayOne(d, RemoveDir(SessionDir(key)));
      assert Signals([RemoveDir(SessionDir(key))][1..]) == [];
    }
  }

  /** The reset of a hand-off is sent only after `auth` has been moved to `upload/<key>`. */
  lemma HandOffSignalFollowsMove(d: Disk, key: string, sendOk: bool, removeOk: bool, moveOk: bool)
    ensures SendsFollow(HandOffOps(d, key, sendOk, removeOk, moveOk), MoveDir(Auth, SessionDir(key)))
  {
    var ops := HandOffOps(d, key, sendOk, removeOk, moveOk);
    if |ops| == 3 {
      assert ops[..2] == [RemoveDir(SessionDir(key)), MoveDir(Auth, SessionDir(key))];
    }
  }

  /** The close actions: who signals, and what happens to the staging folder. */
  lemma CloseEffect(d: Disk, c: ReasonCodes, reason: int)
    ensures var a := Classify(c, reason);
      Signals(CloseOps(d, a)) == (if a.Restart? then [] else [ResetMessage])
    ensures var a := Classify(c, reason);
      (a.Reset? || a.FallbackReset?) ==> Replay(d, CloseOps(d, a)) == d
    ensures var a := Classify(c, reason);
      a.ClearAndReset? ==> Replay(d, CloseOps(d, a)) == d - {Auth}
    ensures var a := Classify(c, reason); var d' := Replay(d, CloseOps(d, a));
      a.Restart? ==> Auth in d' && d' - {Auth} == d - {Auth} && (Auth in d ==> d'[Auth] == d[Auth])
  {
    var a := Classify(c, reason);
    match a
    case Reset => ReplayOne(d, Send(ResetMessage));
    case FallbackReset => ReplayOne(d, Send(ResetMessage));
    case ClearAndReset =>
      ReplayConcat(d, ClearStateOps(), [Send(ResetMessage)]);
      ClearStateEffect(d);
      ReplayOne(d - {Auth}, Send(ResetMessage));
      SignalsConcat(ClearStateOps(), [Send(ResetMessage)]);
    case Restart => StagingEffect(d);
  }

  /** After a logout or bad session, the reset is sent only once `auth` has been removed. */
  lemma ClearPrecedesReset(d: Disk)
    ensures SendsFollow(CloseOps(d, ClearAndReset), RemoveDir(Auth))
  {
    var ops := CloseOps(d, ClearAndReset);
    assert ops == [RemoveDir(Auth), Send(ResetMessage)];
    assert ops[..1] == [RemoveDir(Auth)];
  }

  /** Any `open` or `close` event signals reset at most once. */
  lemma AtMostOneReset(d: Disk, key: string, sendOk: bool, removeOk: bool, moveOk: bool, a: Action)
    ensures |Signals(HandOffOps(d, key, sendOk, removeOk, moveOk))| <= 1
    ensures |Signals(CloseOps(d, a))| <= 1
  {
    if sendOk && removeOk && moveOk && Auth in d {
      HandOffPersists(d, key, sendOk, removeOk, moveOk);
    } else {
      HandOffFailureKeepsStaging(d, key, sendOk, removeOk, moveOk);
    }
    if a.ClearAndReset? {
      SignalsConcat(ClearStateOps(), [Send(ResetMessage)]);
    } else if a.Restart? {
      StagingEffect(d);
    }
  }
}
