/** The renewer as it runs: one call on garam's lineage and one write of the store, repeated on a clock. */
module Renewer {
  import opened Prelude
  import opened MergePatch
  import opened Renewal

  /** What a renewal call answers. */
  datatype Answer = Issued(serial: nat) | TooEarly | Outdated | Error

  class World {
    const cfg: Config
    ghost const doc: Json
    var s: State
    ghost var run: seq<Step>

    ghost predicate Valid()
      reads this
    {
      cfg.interval >= 0 && s == Run(cfg, Fresh(doc), run) && Lineage(s) && Timed(cfg, s)
    }

    constructor (cfg: Config, doc: Json)
      requires cfg.interval >= 0
      ensures Valid() && this.cfg == cfg && s == Fresh(doc)
    {
      this.cfg, this.doc, s, run := cfg, doc, Fresh(doc), [];
    }

    method Take(step: Step)
      requires Valid()
      modifies this
      ensures Valid() && run == old(run) + [step] && s == Next(cfg, old(s), step)
    {
      StepKeeps(cfg, s, step);
      s := Next(cfg, s, step);
      run := run + [step];
      assert run[..|run| - 1] == old(run);
    }

    /** Mints and enrollments, at any time. */
    method Elsewhere(alone: bool)
      requires Valid()
      modifies this
      ensures Valid() && old(run) <= run && s.hand == old(s.hand) && s.now >= old(s.now)
      ensures alone ==> s == old(s)
    {
      if alone { return; }
      var mints: seq<(int, bool)> := *;
      for i := 0 to |mints|
        invariant Valid() && old(run) <= run && s.hand == old(s.hand) && s.now >= old(s.now)
      {
        Take(Mint(mints[i].0, mints[i].1));
      }
    }
  }

  class Renewer {
    const world: World

    constructor (world: World)
      ensures this.world == world
    {
      this.world := world;
    }

    /** RenewIdentity, presenting what the files show at its handshake.  A refusal is told apart by its kind. */
    method RenewIdentity(at: int, read: nat, early: bool, outcome: Outcome) returns (answer: Answer)
      requires world.Valid() && MayAsk(world.cfg, world.s, read, at)
      modifies world
      ensures world.Valid() && world.run == old(world.run) + [Ask(at, read, early, outcome)]
      ensures world.s == Asked(world.cfg, old(world.s), at, read, early, outcome)
      ensures answer.Issued? <==> world.s.hand.Some?
      ensures answer.Issued? ==> world.s.hand.value == answer.serial == world.s.head && !world.s.severed && !world.s.crossed
      ensures answer.Outdated? ==> old(Superseded(world.s, read)) && world.s.head == old(world.s.head)
      ensures old(Superseded(world.s, read)) ==> answer.Outdated? || answer.Error?
      ensures early ==> !answer.Issued? && world.s.head == old(world.s.head)
      ensures answer.TooEarly? <==> early && outcome.Done? && !old(Superseded(world.s, read))
    {
      var refused := world.s.writes[read].serial != world.s.head;
      world.Take(Ask(at, read, early, outcome));
      if !outcome.Done? { return Error; }
      if refused { return Outdated; }
      if early { return TooEarly; }
      answer := Issued(world.s.hand.value);
    }

    /** ReplaceCredential: both keys of the Secret in one patch. */
    method ReplaceCredential(at: int, serial: nat, outcome: Outcome) returns (ok: bool)
      requires world.Valid() && world.s.hand == Some(serial) && at >= world.s.now
      modifies world
      ensures world.Valid() && old(world.run) <= world.run && world.s.hand.None?
      ensures ok == outcome.Done? && world.s == Kept(world.cfg, old(world.s), at, outcome)
      ensures outcome.Effective() ==> world.s.doc == Apply(old(world.s.doc), CredentialPatch(world.cfg, serial))
      ensures outcome.Effective() ==> world.s.writes == old(world.s.writes) + [Write(at, serial)]
      ensures outcome.Failed? ==> world.s.doc == old(world.s.doc) && world.s.writes == old(world.s.writes)
    {
      world.Take(Keep(at, outcome));
      ok := outcome.Done?;
    }

    /** renew, once.  Where nothing was lost and no mint crossed it, what it leaves in the Secret is the head; and where
        the head was presented in its window, every call got through and no mint came between, a new head is stored. */
    method Renew(at: int, read: nat, early: bool, outcome: Outcome, delay: nat, kept: Outcome, alone: bool)
        returns (renewed: bool)
      requires world.Valid() && MayAsk(world.cfg, world.s, read, at)
      modifies world
      ensures world.Valid() && old(world.run) <= world.run && world.s.hand.None?
      ensures !world.s.severed ==> Whole(world.s)
      ensures |old(world.run)| < |world.run| && world.run[|old(world.run)|] == Ask(at, read, early, outcome)
      ensures alone && (early || old(Superseded(world.s, read))) ==>
        !renewed && world.s.head == old(world.s.head) && world.s.doc == old(world.s.doc)
      ensures alone && !old(Superseded(world.s, read)) && !early && outcome.Done? ==>
        && renewed == kept.Done? && world.s.head == old(world.s.head) + 1
        && world.s.writes == old(world.s.writes) + (if kept.Failed? then [] else [Write(at + delay, world.s.head)])
        && (world.s.severed <==> kept.Failed?)
    {
      var answer := RenewIdentity(at, read, early, outcome);
      if !answer.Issued? { return false; }
      world.Elsewhere(alone);
      renewed := ReplaceCredential(world.s.now + delay, answer.serial, kept);
    }
  }
}
