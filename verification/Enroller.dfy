/** The enroller as it runs: a list of digests that grows, a call that spends, a store that is written. */
module Enroller {
  import opened Prelude
  import opened Enrollment

  /** What outlives the process: garam, the credential Secret, and the count of keys generated so far. */
  class World {
    var garam: Garam
    var secret: Option<Stored>
    var nextKey: nat
    ghost var tried: seq<Trial>
    ghost var kept: nat
    ghost var lost: nat

    constructor ()
      ensures garam == START.garam && secret == None && nextKey == 0 && tried == [] && kept == 0 && lost == 0
    {
      garam, secret, nextKey := Garam({}, {}, []), None, 0;
      tried, kept, lost := [], 0, 0;
    }
  }

  class Enroller {
    const world: World
    const digest: string -> string
    ghost const process: nat
    var spent: seq<string>

    constructor (world: World, digest: string -> string, ghost process: nat)
      ensures this.world == world && this.digest == digest && this.process == process && spent == []
    {
      this.world, this.digest, this.process, spent := world, digest, process, [];
    }

    /** The state of the machine, with `finished` for whether the looking has ended. */
    ghost function Value(finished: bool): State
      reads this, world
    {
      State(spent, finished, process, world.garam, world.secret, world.nextKey, world.tried, world.kept, world.lost)
    }

    /** Client.Enroll: nothing is sent where the request does not check or the call does not arrive; otherwise garam
        spends the token, and the answer may still be lost. */
    method Call(token: string, key: nat, reach: Reach) returns (answer: Option<Certificate>)
      modifies world
      ensures world.garam == if reach.NotSent? then old(world.garam) else Spend(old(world.garam), token, key)
      ensures answer ==
        if reach.Reached? && reach.answered && token in old(world.garam.minted) then Some(Certificate(token, key)) else None
      ensures world.lost == old(world.lost) +
        if reach.Reached? && !reach.answered && token in old(world.garam.minted) then 1 else 0
      ensures world.secret == old(world.secret) && world.nextKey == old(world.nextKey)
      ensures world.tried == old(world.tried) && world.kept == old(world.kept)
    {
      answer := None;
      if reach.NotSent? { return; }
      if token in world.garam.minted {
        if reach.answered { answer := Some(Certificate(token, key)); } else { world.lost := world.lost + 1; }
      }
      world.garam := Spend(world.garam, token, key);
    }

    /** enroll: the digest is remembered before the call, so that whatever the call answers the token is not
        presented again. */
    method Enroll(token: string, look: Look) returns (done: bool)
      modifies this, world
      ensures Value(done) == Enrolled(digest, old(Value(false)), token, look)
      ensures done ==> world.secret == Some(Stored(Certificate(token, old(world.nextKey)), old(world.nextKey)))
      ensures look.keyed && look.reach.Reached? && look.reach.answered && token in old(world.garam.minted) && look.stored.Done?
        ==> done
    {
      if !look.keyed { return false; }
      var key := world.nextKey;
      world.nextKey := world.nextKey + 1;
      spent := spent + [digest(token)];
      world.tried := world.tried + [Trial(process, token, look.pair, look.now)];
      var answer := Call(token, key, look.reach);
      if answer.None? { return false; }
      if look.stored.Failed? {
        world.lost := world.lost + 1;
        return false;
      }
      world.secret := Some(Stored(answer.value, key));
      world.kept := world.kept + 1;
      done := look.stored.Done?;
    }

    /** attempt: whether there is anything left to wait for. */
    method Attempt(look: Look) returns (done: bool)
      modifies this, world
      ensures Value(done) == Attempted(digest, old(Value(false)), look)
    {
      if look.pair.Loaded? && look.now < look.pair.notAfter { return true; }
      if look.file.None? { return false; }
      var presented := TrimSpace(look.file.value);
      if presented == "" { return false; }
      if digest(presented) in spent { return false; }
      done := Enroll(presented, look);
    }

    /** Start: one look at once and then one at each interval, until a look ends it or the looks run out with the
        process, none left out.  `outside` is what garam and the renewer do between one look and the next. */
    method Start(looks: seq<Look>, outside: seq<Step>) returns (done: bool, ghost run: seq<Step>)
      requires Inv(digest, Value(false))
      modifies this, world
      ensures Inv(digest, Value(done)) && Value(done) == Run(digest, old(Value(false)), run)
      ensures Looks(run) <= looks && (!done ==> Looks(run) == looks)
    {
      done, run := false, [];
      for i := 0 to |looks|
        invariant !done && Inv(digest, Value(false)) && Value(false) == Run(digest, old(Value(false)), run)
        invariant Looks(run) == looks[..i]
      {
        if i < |outside| && !outside[i].Attempt? && !outside[i].Restart? {
          run := Between(outside[i], old(Value(false)), run);
        }
        assert looks[..i + 1] == looks[..i] + [looks[i]];
        done, run := LookAgain(looks[i], old(Value(false)), run);
        if done { return; }
      }
    }

    method Between(step: Step, ghost start: State, ghost run: seq<Step>) returns (ghost more: seq<Step>)
      requires !step.Attempt? && !step.Restart? && Inv(digest, Value(false)) && Value(false) == Run(digest, start, run)
      modifies world
      ensures Inv(digest, Value(false)) && Value(false) == Run(digest, start, more) && Looks(more) == Looks(run)
    {
      StepKeeps(digest, Value(false), step);
      Elsewhere(step);
      RunThen(digest, start, run, step);
      LooksThen(run, step);
      more := run + [step];
    }

    method LookAgain(look: Look, ghost start: State, ghost run: seq<Step>) returns (done: bool, ghost more: seq<Step>)
      requires Inv(digest, Value(false)) && Value(false) == Run(digest, start, run)
      modifies this, world
      ensures Inv(digest, Value(done)) && Value(done) == Run(digest, start, more) && Looks(more) == Looks(run) + [look]
    {
      StepKeeps(digest, Value(false), Step.Attempt(look));
      done := Attempt(look);
      RunThen(digest, start, run, Step.Attempt(look));
      LooksThen(run, Step.Attempt(look));
      more := run + [Step.Attempt(look)];
    }

    /** A step of garam or of the renewer. */
    method Elsewhere(step: Step)
      requires !step.Attempt? && !step.Restart?
      modifies world
      ensures Value(false) == Next(digest, old(Value(false)), step)
    {
      match step
      case Mint(token) =>
        if token !in world.garam.gone {
          world.garam := world.garam.(minted := world.garam.minted + {token});
        }
      case Withdraw(token) =>
        world.garam := world.garam.(minted := world.garam.minted - {token}, gone := world.garam.gone + {token});
      case Renew(certificate) =>
        world.secret := Some(Stored(certificate, certificate.key));
    }
  }

  /** The looks of a run, in order. */
  function Looks(steps: seq<Step>): seq<Look> {
    if steps == [] then []
    else Looks(steps[..|steps| - 1]) +
         (if steps[|steps| - 1].Attempt? then [steps[|steps| - 1].look] else [])
  }

  lemma LooksThen(steps: seq<Step>, step: Step)
    ensures Looks(steps + [step]) == Looks(steps) + (if step.Attempt? then [step.look] else [])
  {
    assert (steps + [step])[..|steps|] == steps;
  }

  lemma RunThen(digest: string -> string, s: State, steps: seq<Step>, step: Step)
    ensures Run(digest, s, steps + [step]) == Next(digest, Run(digest, s, steps), step)
  {
    assert (steps + [step])[..|steps|] == steps;
  }
}
