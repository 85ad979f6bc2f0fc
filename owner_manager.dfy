/**
 * The owner manager of package ddl: the two owner flags, the session handle
 * and the campaign loop that sets and clears a flag, with every etcd call
 * replaced by the outcome it produced (module EtcdOutcomes). Each method is
 * proved against the specification functions of module OwnerSpec.
 */
module Ddl {
  import opened EtcdOutcomes
  import opened OwnerSpec

  newtype int32 = x: int | -0x8000_0000 <= x < 0x8000_0000

  /** sync.WaitGroup, as its counter. */
  class WaitGroup {
    var counter: int

    constructor ()
      ensures counter == 0
    {
      counter := 0;
    }

    method Add(delta: int)
      modifies this
      ensures counter == old(counter) + delta
    {
      counter := counter + delta;
    }

    method Done()
      modifies this
      ensures counter == old(counter) - 1
    {
      counter := counter - 1;
    }
  }

  class OwnerManager {
    /** 1 while this process is the DDL owner, 0 otherwise. */
    var ddlOwner: int32
    /** 1 while this process is the background owner, 0 otherwise. */
    var bgOwner: int32
    /** The ID of this DDL, the value it campaigns with; fixed at construction. */
    const ddlID: string
    /** The current etcd session (None: no session, Go's nil). */
    var etcdSession: Option<SessionHandle>

    /** Both flags are stored as 0 or 1, as the setters write them. */
    predicate Valid()
      reads this
    {
      && (ddlOwner == 0 || ddlOwner == 1)
      && (bgOwner == 0 || bgOwner == 1)
    }

    /** NewOwnerManager: neither flag is set and there is no session yet. */
    constructor (id: string)
      ensures Valid()
      ensures ddlID == id
      ensures !IsOwner() && !IsBgOwner()
      ensures etcdSession == None
    {
      ddlOwner := 0;
      bgOwner := 0;
      ddlID := id;
      etcdSession := None;
    }

    /** The ID fixed at construction. */
    function ID(): (r: string)
      ensures r == ddlID
    {
      ddlID
    }

    function IsOwner(): (r: bool)
      reads this
      ensures r <==> ddlOwner == 1
    {
      ddlOwner == 1
    }

    method SetOwner(isOwner: bool)
      modifies this`ddlOwner
      ensures IsOwner() == isOwner
      ensures ddlOwner == 0 || ddlOwner == 1
    {
      if isOwner {
        ddlOwner := 1;
      } else {
        ddlOwner := 0;
      }
    }

    function IsBgOwner(): (r: bool)
      reads this
      ensures r <==> bgOwner == 1
    {
      bgOwner == 1
    }

    method SetBgOwner(isOwner: bool)
      modifies this`bgOwner
      ensures IsBgOwner() == isOwner
      ensures bgOwner == 0 || bgOwner == 1
    {
      if isOwner {
        bgOwner := 1;
      } else {
        bgOwner := 0;
      }
    }

    /** The flag that setOwnerVal routes key to. */
    function Flag(key: string): bool
      reads this
    {
      if key == DdlOwnerKey then IsOwner() else IsBgOwner()
    }

    /** The stored value of the flag that key does not route to. */
    function OtherFlag(key: string): int32
      reads this
    {
      if key == DdlOwnerKey then bgOwner else ddlOwner
    }

    /** Writes the DDL owner flag for ddlOwnerKey and the background owner
        flag for every other key, leaving the other flag alone. */
    method SetOwnerVal(key: string, val: bool)
      modifies this`ddlOwner, this`bgOwner
      ensures key == DdlOwnerKey ==> ddlOwner == (if val then 1 else 0) && bgOwner == old(bgOwner)
      ensures key != DdlOwnerKey ==> bgOwner == (if val then 1 else 0) && ddlOwner == old(ddlOwner)
      ensures Flag(key) == val
    {
      if key == DdlOwnerKey {
        SetOwner(val);
      } else {
        SetBgOwner(val);
      }
    }

    /** newSession: attempt(i) is etcd's answer to the i-th attempt. */
    method NewSession(retryCnt: int, attempt: nat -> Attempt) returns (err: Option<Failure>, ghost tried: nat)
      modifies this`etcdSession
      ensures tried == Tried(retryCnt, attempt)
      ensures err == RetryError(retryCnt, attempt)
      ensures etcdSession == RetrySession(retryCnt, attempt, old(etcdSession))
    {
      err := None;
      tried := 0;
      var i := 0;
      while i < retryCnt
        invariant 0 <= i <= Budget(retryCnt)
        invariant forall j :: 0 <= j < i ==> attempt(j) == Fail(Other)
        invariant tried == i
        invariant i == 0 ==> err == None && etcdSession == old(etcdSession)
        invariant i > 0 ==> err == Some(Other) && etcdSession == None
        decreases retryCnt - i
      {
        var a := attempt(i);
        etcdSession, err := SessionOf(a), ErrorOf(a);
        tried := i + 1;
        if err.None? {
          break;
        }
        if err.value == CtxFinished {
          break;
        }
        i := i + 1;
      }
    }

    /** watchOwner on the record key: responses(key) are the cases its select
        takes once the watch channel is opened on key, in order. Returns how
        the watch ended (None: still watching when the cases ran out) and how
        many cases it consumed. */
    method WatchOwner(key: string, responses: string -> seq<WatchCase>) returns (end: Option<WatchEnd>, used: nat)
      ensures end == WatchOutcome(responses(key))
      ensures var cases := responses(key);
        end.None? ==> used == |cases| && forall j :: 0 <= j < |cases| ==> !EndsWatch(cases[j])
      ensures var cases := responses(key);
        end.Some? ==> 0 < used <= |cases| && EndsWatch(cases[used - 1])
                      && end.value == EndOf(cases[used - 1])
                      && forall j :: 0 <= j < used - 1 ==> !EndsWatch(cases[j])
    {
      var cases := responses(key);
      var i := 0;
      while i < |cases|
        invariant 0 <= i <= |cases|
        invariant forall j :: 0 <= j < i ==> !EndsWatch(cases[j])
      {
        match cases[i] {
          case Received(resp) =>
            if resp.canceled {
              WatchEndsAtFirstLoss(cases, i);
              return Some(Canceled), i + 1;
            }
            var k := 0;
            while k < |resp.events|
              invariant 0 <= k <= |resp.events|
              invariant forall m :: 0 <= m < k ==> resp.events[m].kind != Delete
            {
              if resp.events[k].kind == Delete {
                WatchEndsAtFirstLoss(cases, i);
                return Some(Deleted), i + 1;
              }
              k := k + 1;
            }
          case Fired(sig) =>
            WatchEndsAtFirstLoss(cases, i);
            return Some(Interrupted(sig)), i + 1;
        }
        i := i + 1;
      }
      return None, |cases|;
    }

    /** CampaignOwners: creates the session with the default budget and, when
        that succeeds, registers two loops with wg and starts one campaign
        loop per duty; started lists the duty keys of the loops started, in
        order. Each started loop runs as CampaignLoop. */
    method CampaignOwners(wg: WaitGroup, attempt: nat -> Attempt) returns (err: Option<Failure>, started: seq<string>)
      modifies this`etcdSession, wg
      ensures err == RetryError(NewSessionDefaultRetryCnt, attempt)
      ensures etcdSession == RetrySession(NewSessionDefaultRetryCnt, attempt, old(etcdSession))
      ensures err.Some? ==> started == [] && wg.counter == old(wg.counter)
      ensures err.None? ==> && etcdSession.Some?
                            && started == [DdlOwnerKey, BgOwnerKey]
                            && wg.counter == old(wg.counter) + 2
    {
      ghost var tried;
      err, tried := NewSession(NewSessionDefaultRetryCnt, attempt);
      if err.Some? {
        return err, [];
      }
      NewSessionSuccessLeavesSession(NewSessionDefaultRetryCnt, attempt, old(etcdSession));
      wg.Add(2);
      started := [DdlOwnerKey, BgOwnerKey];
    }

    /** One iteration of campaignLoop's body for the duty key: the select at
        the loop top, the campaign, the leader query, the ID comparison, and
        the watch of an owned record. round says how it went and, through
        Continues, whether the loop goes on. */
    method CampaignRound(key: string, it: Iteration) returns (round: Round)
      requires Valid()
      modifies this`ddlOwner, this`bgOwner, this`etcdSession
      ensures Valid()
      ensures var step := RoundOf(ddlID, it, old(etcdSession));
        round == step.round && etcdSession == step.session
      ensures Flag(key) == FlagAfter(round, old(Flag(key)))
      ensures OtherFlag(key) == old(OtherFlag(key))
    {
      // the select at the loop top
      if it.top == Some(SessionDone) {
        var err;
        ghost var tried;
        err, tried := NewSession(NewSessionRetryUnlimited, it.renew);
        if err.Some? {
          return Exit(RenewFailed(err.value));
        }
      } else if it.top == Some(CtxDone) {
        return Exit(CtxDoneAtTop);
      }

      if it.campaign.Some? {
        if it.campaign.value == CtxFinished {
          return Exit(CampaignCtxFinished);
        }
        return CampaignFailed;
      }

      if it.leader.LeaderErr? {
        return NoLeader;
      }
      var leader := it.leader.first;
      if leader.value == ddlID {
        SetOwnerVal(key, true);
      } else {
        return NotOwner(leader.value);
      }

      var end, used := WatchOwner(leader.key, it.watch);
      if end.Some? {
        SetOwnerVal(key, false);
      }
      return Owned(leader.key, end);
    }

    /** The for loop of campaignLoop for the duty key, over a script of
        iterations. It stops when the loop returns (returned), when the
        script ends at the loop top, or when the script ends while a watch
        is still going. The rounds it goes through and the state it leaves
        are the ones Run describes; the other duty's flag is untouched. */
    method CampaignRounds(key: string, script: seq<Iteration>) returns (ghost rounds: seq<Round>, returned: bool)
      requires Valid()
      modifies this`ddlOwner, this`bgOwner, this`etcdSession
      ensures Valid()
      ensures var r := Run(ddlID, script, old(Flag(key)), old(etcdSession));
        rounds == r.rounds && Flag(key) == r.flag && etcdSession == r.session
      ensures OtherFlag(key) == old(OtherFlag(key))
      ensures returned <==> |rounds| > 0 && Last(rounds).Exit?
    {
      ghost var total := Run(ddlID, script, Flag(key), etcdSession);
      ghost var flag, session := Flag(key), etcdSession;
      rounds := [];
      returned := false;
      var rest := script;
      while rest != []
        invariant Valid()
        invariant flag == Flag(key) && session == etcdSession
        invariant var r := Run(ddlID, rest, flag, session);
          total == RunResult(rounds + r.rounds, r.flag, r.session)
        invariant |rounds| > 0 ==> Continues(Last(rounds))
        invariant OtherFlag(key) == old(OtherFlag(key))
        decreases rest
      {
        var round := CampaignRound(key, rest[0]);
        if !Continues(round) {
          RunStops(ddlID, rest, rounds, flag, session, total);
          rounds := rounds + [round];
          returned := round.Exit?;
          break;
        }
        RunContinues(ddlID, rest, rounds, flag, session, total);
        rounds := rounds + [round];
        flag, session := Flag(key), etcdSession;
        rest := rest[1..];
      }
    }

    /** campaignLoop for the duty key: its for loop, then the deferred
        wg.Done(), which runs exactly when the loop returned. */
    method CampaignLoop(key: string, wg: WaitGroup, script: seq<Iteration>) returns (ghost rounds: seq<Round>)
      requires Valid()
      modifies this`ddlOwner, this`bgOwner, this`etcdSession, wg
      ensures Valid()
      ensures var r := Run(ddlID, script, old(Flag(key)), old(etcdSession));
        rounds == r.rounds && Flag(key) == r.flag && etcdSession == r.session
      ensures OtherFlag(key) == old(OtherFlag(key))
      ensures wg.counter == old(wg.counter) - (if |rounds| > 0 && Last(rounds).Exit? then 1 else 0)
    {
      var returned;
      rounds, returned := CampaignRounds(key, script);
      if returned {
        wg.Done();
      }
    }
  }
}
