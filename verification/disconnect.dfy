/**
 * The close branch of the connection.update handler: the disconnect reason is routed
 * through an ordered if/else table. The library's reason constants are a parameter and
 * may coincide; the order of the tests decides which action wins.
 */
module Disconnect {

  /** The library's DisconnectReason constants the handler consults. */
  datatype ReasonCodes = ReasonCodes(
    connectionClosed: int,
    connectionLost: int,
    timedOut: int,
    connectionReplaced: int,
    loggedOut: int,
    badSession: int,
    restartRequired: int)

  datatype Action =
    | Reset          // signal reset, staging kept
    | ClearAndReset  // remove the staging folder, then signal reset
    | Restart        // start the pairing flow again in-process, without a phone
    | FallbackReset  // any other reason: signal reset

  /** resetReasons */
  function ResetReasons(c: ReasonCodes): seq<int> {
    [c.connectionClosed, c.connectionLost, c.timedOut, c.connectionReplaced]
  }

  /** resetWithClearStateReasons */
  function ClearReasons(c: ReasonCodes): seq<int> {
    [c.loggedOut, c.badSession]
  }

  /** The if/else chain, tested in source order. */
  function Classify(c: ReasonCodes, reason: int): Action {
    if reason in ResetReasons(c) then Reset
    else if reason in ClearReasons(c) then ClearAndReset
    else if reason == c.restartRequired then Restart
    else FallbackReset
  }

  /** Whether the action signals reset to the host process. */
  predicate SignalsReset(a: Action) {
    !a.Restart?
  }

  /** An independent reading of the chain: a table of buckets, the first containing the reason wins. */
  function FirstMatch(table: seq<(seq<int>, Action)>, reason: int, default: Action): (a: Action)
    ensures a == default || exists i :: 0 <= i < |table| && table[i].1 == a && reason in table[i].0
    ensures (forall i :: 0 <= i < |table| ==> reason !in table[i].0) ==> a == default
  {
    if table == [] then default
    else if reason in table[0].0 then table[0].1
    else FirstMatch(table[1..], reason, default)
  }

  function RoutingTable(c: ReasonCodes): seq<(seq<int>, Action)> {
    [(ResetReasons(c), Reset), (ClearReasons(c), ClearAndReset), ([c.restartRequired], Restart)]
  }

  /** The chain is the first-match reading of the routing table, with FallbackReset as default. */
  lemma ClassifyIsFirstMatch(c: ReasonCodes, reason: int)
    ensures Classify(c, reason) == FirstMatch(RoutingTable(c), reason, FallbackReset)
  {
    var t0 := RoutingTable(c);
    var t1 := [(ClearReasons(c), ClearAndReset), ([c.restartRequired], Restart)];
    var t2 := [([c.restartRequired], Restart)];
    assert t0[1..] == t1 && t1[1..] == t2 && t2[1..] == [];
    assert FirstMatch(t2, reason, FallbackReset) ==
      if reason == c.restartRequired then Restart else FallbackReset;
    assert FirstMatch(t1, reason, FallbackReset) ==
      if reason in ClearReasons(c) then ClearAndReset else FirstMatch(t2, reason, FallbackReset);
  }

  /** Each action, both directions: the first bucket that contains the reason decides. */
  lemma ClassifyCases(c: ReasonCodes, reason: int)
    ensures Classify(c, reason) == Reset <==> reason in ResetReasons(c)
    ensures Classify(c, reason) == ClearAndReset <==>
      reason !in ResetReasons(c) && reason in ClearReasons(c)
    ensures Classify(c, reason) == Restart <==>
      reason !in ResetReasons(c) && reason !in ClearReasons(c) && reason == c.restartRequired
    ensures Classify(c, reason) == FallbackReset <==>
      reason !in ResetReasons(c) && reason !in ClearReasons(c) && reason != c.restartRequired
  {
  }

  /** Every named constant lands in its own bucket unless an earlier bucket shares its value. */
  lemma NamedReasons(c: ReasonCodes)
    ensures Classify(c, c.connectionClosed) == Reset
    ensures Classify(c, c.connectionLost) == Reset
    ensures Classify(c, c.timedOut) == Reset
    ensures Classify(c, c.connectionReplaced) == Reset
    ensures c.loggedOut !in ResetReasons(c) ==> Classify(c, c.loggedOut) == ClearAndReset
    ensures c.badSession !in ResetReasons(c) ==> Classify(c, c.badSession) == ClearAndReset
    ensures c.restartRequired !in ResetReasons(c) + ClearReasons(c) ==>
      Classify(c, c.restartRequired) == Restart
  {
  }

  /** Only a restart goes without a reset signal, and it needs the restart constant. */
  lemma ResetUnlessRestart(c: ReasonCodes, reason: int)
    ensures !SignalsReset(Classify(c, reason)) ==> reason == c.restartRequired
    ensures reason != c.restartRequired ==> SignalsReset(Classify(c, reason))
  {
  }
}
