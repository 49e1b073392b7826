/**
 * The process state of index.js as one object: the directories on disk and the journal
 * of completed operations (filesystem calls and process.send messages). Its methods are
 * the startup block, clearState, the beginning of getPairingCode, the /pair handler and
 * the connection.update handler; each ties its new journal to the operation sequences of
 * module Handlers, whose properties are proved there.
 */
module Lifecycle {
  import opened Wrappers
  import opened Disk
  import opened Disconnect
  import opened Handlers
  import opened AccessKey
  import opened Phone
  import opened Listing

  /** The `connection` field of a connection.update event. */
  datatype Update = Open | Close(reason: int) | Other

  /** What the libraries and the filesystem do while one event is handled. */
  datatype Environment = Environment(
    draws: (nat, nat, nat),  // the three Math.floor(Math.random() * 100) values
    sendOk: bool,            // both sendMessage calls resolve
    removeOk: bool,          // fs.remove(newSessionPath) resolves
    moveOk: bool,            // fs.move(sessionFolder, newSessionPath) resolves, given that `auth` exists
    codes: ReasonCodes,      // the library's DisconnectReason constants
    registered: bool)        // creds.registered of a socket opened by a restart

  /** The operations one connection.update event completes. */
  function UpdateOps(d: Disk, u: Update, env: Environment): seq<Op> {
    match u
    case Open =>
      HandOffOps(d, GenerateAccessKey(env.draws.0, env.draws.1, env.draws.2), env.sendOk, env.removeOk, env.moveOk)
    case Close(reason) => CloseOps(d, Classify(env.codes, reason))
    case Other => []
  }

  class Host {
    ghost const boot: Disk  // the disk as the process found it
    var disk: Disk
    var log: seq<Op>

    /** The disk is the boot disk with the journal replayed on it. */
    ghost predicate Valid()
      reads this
    {
      Replay(boot, log) == disk
    }

    /** The module-level startup code. */
    constructor Start(found: Disk, removeOk: bool)
      ensures Valid() && boot == found
      ensures log == StartupOps(found, removeOk)
      ensures disk == Replay(found, StartupOps(found, removeOk))
    {
      boot := found;
      disk := found;
      log := [];
      new;
      if Auth in disk {
        if removeOk {
          Remove(Auth);
        }
      }
      if Upload !in disk {
        MakeDir(Upload);
      }
    }

    /** Recursive removal; removing a missing directory is not an error. */
    method Remove(dir: Dir)
      requires Valid()
      modifies this
      ensures Valid()
      ensures disk == old(disk) - {dir} && log == old(log) + [RemoveDir(dir)]
    {
      ReplayConcat(boot, log, [RemoveDir(dir)]);
      ReplayOne(disk, RemoveDir(dir));
      disk := disk - {dir};
      log := log + [RemoveDir(dir)];
    }

    /** A move that succeeded: the destination holds the source's files and the source is gone. */
    method Move(src: Dir, dst: Dir)
      requires Valid() && src in disk
      modifies this
      ensures Valid()
      ensures disk == (old(disk) - {src})[dst := old(disk)[src]]
      ensures log == old(log) + [MoveDir(src, dst)]
    {
      ReplayConcat(boot, log, [MoveDir(src, dst)]);
      ReplayOne(disk, MoveDir(src, dst));
      disk := (disk - {src})[dst := disk[src]];
      log := log + [MoveDir(src, dst)];
    }

    method MakeDir(dir: Dir)
      requires Valid() && dir !in disk
      modifies this
      ensures Valid()
      ensures disk == old(disk)[dir := []] && log == old(log) + [Op.MakeDir(dir)]
    {
      ReplayConcat(boot, log, [Op.MakeDir(dir)]);
      ReplayOne(disk, Op.MakeDir(dir));
      disk := disk[dir := []];
      log := log + [Op.MakeDir(dir)];
    }

    /** process.send(msg). */
    method Signal(msg: string)
      requires Valid()
      modifies this
      ensures Valid()
      ensures disk == old(disk) && log == old(log) + [Send(msg)]
    {
      ReplayConcat(boot, log, [Send(msg)]);
      ReplayOne(disk, Send(msg));
      log := log + [Send(msg)];
    }

    method ClearState()
      requires Valid()
      modifies this
      ensures Valid()
      ensures disk == old(disk) - {Auth} && log == old(log) + ClearStateOps()
    {
      Remove(Auth);
    }

    /** The first step of getPairingCode: create `auth` when it does not exist. */
    method EnsureStaging()
      requires Valid()
      modifies this
      ensures Valid()
      ensures log == old(log) + StagingOps(old(disk))
      ensures disk == Replay(old(disk), StagingOps(old(disk)))
    {
      ghost var d0, l0 := disk, log;
      if Auth !in disk {
        MakeDir(Auth);
      }
      ReplayConcat(boot, l0, StagingOps(d0));
    }

    /** getPairingCode(phone), up to the point where it resolves, rejects or waits for events. */
    method GetPairingCode(phone: Option<string>, registered: bool) returns (start: PairingStart)
      requires Valid()
      modifies this
      ensures Valid()
      ensures start == StartPairing(phone, registered)
      ensures log == old(log) + StagingOps(old(disk))
      ensures disk == Replay(old(disk), StagingOps(old(disk)))
    {
      EnsureStaging();
      if registered {
        start := AlreadyRegistered;
      } else {
        var number := NormalisePhone(phone);
        if |number| < MinPhoneDigits {
          start := Rejected(InvalidPhoneError);
        } else {
          start := CodeRequested(number);
        }
      }
    }

    /** The /pair handler; `code` is what requestPairingCode would resolve to. */
    method Pair(phone: Option<string>, registered: bool, code: string) returns (r: PairResponse)
      requires Valid()
      modifies this
      ensures Valid()
      ensures r == PairEndpoint(phone, registered, code)
      ensures PhoneMissing(phone) ==> disk == old(disk) && log == old(log)
      ensures !PhoneMissing(phone) ==>
        log == old(log) + StagingOps(old(disk)) && disk == Replay(old(disk), StagingOps(old(disk)))
    {
      if PhoneMissing(phone) {
        return ErrorJson(MissingPhoneError);
      }
      var start := GetPairingCode(phone, registered);
      match start
      case Rejected(e) => r := Unanswered(Some(e));
      case CodeRequested(_) => r := CodeJson(code);
      case AlreadyRegistered => r := Unanswered(None);
    }

    /** The `open` branch: draw the key, send the confirmations, then remove, move and signal. */
    method OnOpen(r1: nat, r2: nat, r3: nat, sendOk: bool, removeOk: bool, moveOk: bool) returns (key: string)
      requires Valid()
      modifies this
      ensures Valid()
      ensures key == GenerateAccessKey(r1, r2, r3)
      ensures log == old(log) + HandOffOps(old(disk), key, sendOk, removeOk, moveOk)
      ensures disk == Replay(old(disk), HandOffOps(old(disk), key, sendOk, removeOk, moveOk))
    {
      ghost var d0, l0 := disk, log;
      key := GenerateAccessKey(r1, r2, r3);
      var dest := SessionDir(key);
      ReplayConcat(boot, l0, HandOffOps(d0, key, sendOk, removeOk, moveOk));
      if !sendOk {
        return;  // sendMessage rejected outside the try block
      }
      if !removeOk {
        return;  // the rejection of fs.remove is caught and ignored
      }
      Remove(dest);
      if !moveOk || Auth !in disk {
        return;  // the rejection of fs.move is caught and ignored
      }
      Move(Auth, dest);
      Signal(ResetMessage);
    }

    /** The `close` branch; a restart returns how the re-entered getPairingCode proceeds. */
    method OnClose(codes: ReasonCodes, reason: int, registered: bool) returns (action: Action, restart: Option<PairingStart>)
      requires Valid()
      modifies this
      ensures Valid()
      ensures action == Classify(codes, reason)
      ensures restart == if action.Restart? then Some(StartPairing(None, registered)) else None
      ensures log == old(log) + CloseOps(old(disk), action)
      ensures disk == Replay(old(disk), CloseOps(old(disk), action))
    {
      ghost var d0, l0 := disk, log;
      ReplayConcat(boot, l0, CloseOps(d0, Classify(codes, reason)));
      restart := None;
      if reason in ResetReasons(codes) {
        action := Reset;
        Signal(ResetMessage);
      } else if reason in ClearReasons(codes) {
        action := ClearAndReset;
        ClearState();
        Signal(ResetMessage);
      } else if reason == codes.restartRequired {
        action := Restart;
        var start := GetPairingCode(None, registered);
        restart := Some(start);
      } else {
        action := FallbackReset;
        Signal(ResetMessage);
      }
    }

    /** The connection.update handler: the `open` test, then the `close` test. */
    method OnUpdate(u: Update, env: Environment) returns (key: Option<string>, restart: Option<PairingStart>)
      requires Valid()
      modifies this
      ensures Valid()
      ensures key.Some? <==> u.Open?
      ensures key.Some? ==> key.value == GenerateAccessKey(env.draws.0, env.draws.1, env.draws.2)
      ensures restart == if u.Close? && Classify(env.codes, u.reason).Restart?
        then Some(StartPairing(None, env.registered)) else None
      ensures log == old(log) + UpdateOps(old(disk), u, env)
      ensures disk == Replay(old(disk), UpdateOps(old(disk), u, env))
    {
      key, restart := None, None;
      if u.Open? {
        var k := OnOpen(env.draws.0, env.draws.1, env.draws.2, env.sendOk, env.removeOk, env.moveOk);
        key := Some(k);
      }
      if u.Close? {
        var _, s := OnClose(env.codes, u.reason, env.registered);
        restart := s;
      }
      if u.Other? {
        ReplayConcat(boot, log, []);
        assert log + [] == log;
      }
    }
  }

  /** A completed hand-off followed by /session/<key> lists exactly the staged files, in order. */
  lemma PersistThenList(d: Disk, key: string, protocol: string, host: string)
    requires Auth in d
    ensures ListSession(Replay(d, HandOffOps(d, key, true, true, true)), protocol, host, key)
         == Found(key, Entries(protocol, host, key, d[Auth]))
  {
    HandOffPersists(d, key, true, true, true);
  }

  /** A hand-off that did not complete leaves /session/<key> answering 404 when the folder was new. */
  lemma FailedHandOffNotListed(d: Disk, key: string, sendOk: bool, removeOk: bool, moveOk: bool, protocol: string, host: string)
    requires !(sendOk && removeOk && moveOk && Auth in d)
    requires SessionDir(key) !in d
    ensures ListSession(Replay(d, HandOffOps(d, key, sendOk, removeOk, moveOk)), protocol, host, key)
         == NotFound(NotFoundStatus, NotFoundError)
  {
    var ops := HandOffOps(d, key, sendOk, removeOk, moveOk);
    if ops != [] {
      ReplayOne(d, RemoveDir(SessionDir(key)));
    }
  }

  /**
   * Startup, a pairing attempt that stages `auth`, then a logout before any `open`. The
   * invariant lets the outcome be read off the whole journal: replayed from the boot disk
   * it gives the disk, which has no `auth` but still has `upload`, and its only message is
   * one reset.
   */
  method StagedThenLoggedOut(found: Disk, codes: ReasonCodes) returns (disk: Disk, signals: seq<string>)
    requires codes.loggedOut !in ResetReasons(codes)
    ensures disk == Replay(found, StartupOps(found, true) + StagingOps(Replay(found, StartupOps(found, true))) + ClearStateOps() + [Send(ResetMessage)])
    ensures Auth !in disk && Upload in disk
    ensures signals == [ResetMessage]
  {
    var host := new Host.Start(found, true);
    ghost var booted := host.disk;
    host.EnsureStaging();
    ghost var staged := host.disk;
    var key, restart := host.OnUpdate(Close(codes.loggedOut), Environment((0, 0, 0), true, true, true, codes, false));
    ClassifyCases(codes, codes.loggedOut);
    assert host.log == StartupOps(found, true) + StagingOps(booted) + ClearStateOps() + [Send(ResetMessage)];
    StartupEffect(found, true);
    StagingEffect(booted);
    CloseEffect(staged, codes, codes.loggedOut);
    SignalsConcat(StartupOps(found, true), StagingOps(booted));
    SignalsConcat(StartupOps(found, true) + StagingOps(booted), ClearStateOps() + [Send(ResetMessage)]);
    disk := host.disk;
    signals := Signals(host.log);
  }
}
