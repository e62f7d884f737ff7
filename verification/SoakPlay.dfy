// One worker's part of a soak on its own: its actions and the discards between them, what a
// whole pass amounts to in them, and how they sit in a run of the system.

module SoakPlay {
  import opened Words
  import opened Arm64
  import opened GuestCode
  import opened Passes
  import opened Runs
  import opened Soak
  import opened SoakWorker
  import opened SoakSystem

  const IDLE: Choice := Choice(true, {})

  // The worker's turns and the kernel's discards, one after the other.
  function Play(code: seq<Word32>, munmap: bool, s: Slot, x: Effect, hs: seq<Happening>): Effect
    requires SlotOk(s)
  {
    if hs == [] then x
    else
      var before := Play(code, munmap, s, x, hs[..|hs| - 1]);
      match hs[|hs| - 1]
      case Loss(page) => before.(mem := DropPage(before.mem, page))
      case Turn(_, c) => Act(code, munmap, s, before, c)
  }

  lemma PlayTurn(code: seq<Word32>, munmap: bool, s: Slot, x: Effect, hs: seq<Happening>, k: nat, c: Choice)
    requires SlotOk(s)
    ensures Play(code, munmap, s, x, hs + [Turn(k, c)]) == Act(code, munmap, s, Play(code, munmap, s, x, hs), c)
  {
    hide Act;
    assert (hs + [Turn(k, c)])[..|hs|] == hs;
  }

  lemma PlayLoss(code: seq<Word32>, munmap: bool, s: Slot, x: Effect, hs: seq<Happening>, page: int)
    requires SlotOk(s)
    ensures var y := Play(code, munmap, s, x, hs);
      Play(code, munmap, s, x, hs + [Loss(page)]) == y.(mem := DropPage(y.mem, page))
  {
    hide Act;
    assert (hs + [Loss(page)])[..|hs|] == hs;
  }

  lemma {:induction false} PlayConcat(code: seq<Word32>, munmap: bool, s: Slot, x: Effect,
                                      hs: seq<Happening>, gs: seq<Happening>)
    requires SlotOk(s)
    ensures Play(code, munmap, s, x, hs + gs) == Play(code, munmap, s, Play(code, munmap, s, x, hs), gs)
    decreases |gs|
  {
    hide Act;
    if gs == [] {
      assert hs + gs == hs;
    } else {
      var n := |gs| - 1;
      PlayConcat(code, munmap, s, x, hs, gs[..n]);
      assert (hs + gs)[..|hs + gs| - 1] == hs + gs[..n];
    }
  }

  // The events of a pass as happenings of worker k.
  function AsTurns(k: nat, evs: seq<Event>): (hs: seq<Happening>)
    requires Resume !in evs
  {
    if evs == [] then []
    else
      assert evs[|evs| - 1] in evs;
      AsTurns(k, evs[..|evs| - 1]) +
      [if evs[|evs| - 1] == Tick then Turn(k, IDLE) else Loss(evs[|evs| - 1].page)]
  }

  lemma AllRetirePrefix(env: Env, m: Machine, evs: seq<Event>)
    requires evs != [] && AllRetire(env, m, evs)
    ensures var init := evs[..|evs| - 1]; var at := Exec(env, m, init);
      AllRetire(env, m, init) && (evs[|evs| - 1] == Tick ==> Step(env, at.cpu, at.mem).Retired?)
  {
    hide Step;
    RetiredAtMostTicks(env, m, evs[..|evs| - 1]);
  }

  lemma RetiredTurn(code: seq<Word32>, munmap: bool, s: Slot, x: Effect, c: Choice)
    requires SlotOk(s) && x.w.stage.Running? && Step(Env(code, x.mapped), x.cpu, x.mem).Retired?
    ensures var m := Apply(Env(code, x.mapped), Machine(x.cpu, x.mem), Tick);
      Act(code, munmap, s, x, c) == x.(cpu := m.cpu, mem := m.mem)
  {
    hide Step;
  }

  lemma BellTurn(code: seq<Word32>, munmap: bool, s: Slot, x: Effect, c: Choice)
    requires SlotOk(s) && x.w.stage.Running? && Step(Env(code, x.mapped), x.cpu, x.mem) == DataAbort(DOORBELL_GPA)
    ensures var (cpu', w') := Finish(s, x.w, x.cpu, x.w.stage.job);
      Act(code, munmap, s, x, c) == x.(cpu := cpu', w := w')
  {
    hide Step;
  }

  // While a pass is under way, the worker's turns are the instructions of the pass.
  lemma {:induction false} PassPlays(code: seq<Word32>, munmap: bool, s: Slot, x: Effect, k: nat, evs: seq<Event>)
    requires SlotOk(s) && x.w.stage.Running? && Resume !in evs
    requires AllRetire(Env(code, x.mapped), Machine(x.cpu, x.mem), evs)
    ensures var m := Exec(Env(code, x.mapped), Machine(x.cpu, x.mem), evs);
      Play(code, munmap, s, x, AsTurns(k, evs)) == x.(cpu := m.cpu, mem := m.mem)
    decreases |evs|
  {
    hide Step;
    hide Act;
    if evs != [] {
      var n := |evs| - 1;
      var env, m := Env(code, x.mapped), Machine(x.cpu, x.mem);
      AllRetirePrefix(env, m, evs);
      PassPlays(code, munmap, s, x, k, evs[..n]);
      var y := Play(code, munmap, s, x, AsTurns(k, evs[..n]));
      assert evs[n] in evs;
      if evs[n] == Tick {
        PlayTurn(code, munmap, s, x, AsTurns(k, evs[..n]), k, IDLE);
        RetiredTurn(code, munmap, s, y, IDLE);
      } else {
        PlayLoss(code, munmap, s, x, AsTurns(k, evs[..n]), evs[n].page);
      }
    }
  }

  // With the turn in which it stands at the doorbell the pass is over.
  lemma PassEnds(code: seq<Word32>, munmap: bool, s: Slot, x: Effect, k: nat, evs: seq<Event>)
    requires SlotOk(s) && x.w.stage.Running? && Resume !in evs
    requires var env := Env(code, x.mapped); var m := Exec(env, Machine(x.cpu, x.mem), evs);
      EndsStuck(env, Machine(x.cpu, x.mem), evs) && Step(env, m.cpu, m.mem) == DataAbort(DOORBELL_GPA)
    ensures var m := Exec(Env(code, x.mapped), Machine(x.cpu, x.mem), evs);
      var (cpu', w') := Finish(s, x.w, m.cpu, x.w.stage.job);
      Play(code, munmap, s, x, AsTurns(k, evs)) == x.(cpu := cpu', w := w', mem := m.mem)
  {
    hide Step;
    hide Act;
    var init := evs[..|evs| - 1];
    var env, m := Env(code, x.mapped), Machine(x.cpu, x.mem);
    var at := Exec(env, m, init);
    assert Exec(env, m, evs) == at by {
      assert Exec(env, m, evs) == Apply(env, at, Tick);
    }
    PassPlays(code, munmap, s, x, k, init);
    PlayTurn(code, munmap, s, x, AsTurns(k, init), k, IDLE);
    BellTurn(code, munmap, s, x.(cpu := at.cpu, mem := at.mem), IDLE);
  }

  // ---- Whole passes ----

  // From cpu0 and mem0 pass p has been run to the doorbell, the kernel doing as in t.
  ghost predicate PassRan(env: Env, p: Pass, cpu0: Cpu, mem0: Memory, t: seq<Event>, m: Machine) {
    && Loaded(env.code) && Valid(p) && Granted(p, EndOf(p), env.mapped) && Resume !in t
    && m == Exec(env, Machine(Arm(p, cpu0), mem0), t) && AtBell(p.kind, m.cpu)
    && EndsStuck(env, Machine(Arm(p, cpu0), mem0), t)
  }

  // A worker that is to run a job on a vCPU whose registers are those of cpu.
  function Armed(s: Slot, x: Effect, job: Job, cpu: Cpu): Effect
    requires SlotOk(s)
  {
    x.(cpu := Arm(PassFor(s, x.w, job), cpu), w := x.w.(stage := Running(job)))
  }

  function Done(s: Slot, x: Effect, m: Machine): Effect
    requires SlotOk(s) && x.w.stage.Running?
  {
    var (cpu', w') := Finish(s, x.w, m.cpu, x.w.stage.job);
    x.(cpu := cpu', w := w', mem := m.mem)
  }

  lemma JobPlays(code: seq<Word32>, munmap: bool, s: Slot, x: Effect, cpu0: Cpu, t: seq<Event>, m: Machine)
    requires SlotOk(s) && x.w.stage.Running? && x.cpu == Arm(PassFor(s, x.w, x.w.stage.job), cpu0)
    requires PassRan(Env(code, x.mapped), PassFor(s, x.w, x.w.stage.job), cpu0, x.mem, t, m)
    ensures Play(code, munmap, s, x, AsTurns(s.k, t)) == Done(s, x, m)
  {
    hide Step;
    hide Act;
    BellHere(Env(code, x.mapped), PassFor(s, x.w, x.w.stage.job), cpu0, x.mem, t);
    PassEnds(code, munmap, s, x, s.k, t);
  }

  // ---- Scripts ----

  // A play in progress: where it started, what has happened, where that has led.
  datatype Script = Script(start: Effect, hs: seq<Happening>, now: Effect)

  ghost predicate Follows(code: seq<Word32>, munmap: bool, s: Slot, p: Script)
    requires SlotOk(s)
  {
    Play(code, munmap, s, p.start, p.hs) == p.now && OnlyWorker(p.hs, s.k)
  }

  // The script goes on by one pass of the worker's vCPU.
  lemma ByPass(code: seq<Word32>, munmap: bool, s: Slot, p: Script, cpu0: Cpu, t: seq<Event>, m: Machine)
    returns (p': Script)
    requires SlotOk(s) && Follows(code, munmap, s, p)
    requires p.now.w.stage.Running? && p.now.cpu == Arm(PassFor(s, p.now.w, p.now.w.stage.job), cpu0)
    requires PassRan(Env(code, p.now.mapped), PassFor(s, p.now.w, p.now.w.stage.job), cpu0, p.now.mem, t, m)
    ensures Follows(code, munmap, s, p') && p'.start == p.start && p'.now == Done(s, p.now, m)
    ensures p'.hs == p.hs + AsTurns(s.k, t)
  {
    hide Step;
    hide Act;
    JobPlays(code, munmap, s, p.now, cpu0, t, m);
    PlayConcat(code, munmap, s, p.start, p.hs, AsTurns(s.k, t));
    AsTurnsOnly(s.k, t);
    p' := Script(p.start, p.hs + AsTurns(s.k, t), Done(s, p.now, m));
  }

  // ... or by one step of its host thread.
  lemma ByTurn(code: seq<Word32>, munmap: bool, s: Slot, p: Script, c: Choice) returns (p': Script)
    requires SlotOk(s) && Follows(code, munmap, s, p)
    ensures Follows(code, munmap, s, p') && p'.start == p.start && p'.now == Act(code, munmap, s, p.now, c)
    ensures p'.hs == p.hs + [Turn(s.k, c)]
  {
    hide Act;
    PlayTurn(code, munmap, s, p.start, p.hs, s.k, c);
    p' := Script(p.start, p.hs + [Turn(s.k, c)], Act(code, munmap, s, p.now, c));
  }

  // ---- In the system ----

  predicate OnlyWorker(hs: seq<Happening>, k: nat) {
    forall i :: 0 <= i < |hs| && hs[i].Turn? ==> hs[i].k == k
  }

  lemma {:induction false} AsTurnsOnly(k: nat, evs: seq<Event>)
    requires Resume !in evs
    ensures OnlyWorker(AsTurns(k, evs), k)
    decreases |evs|
  {
    if evs != [] {
      AsTurnsOnly(k, evs[..|evs| - 1]);
    }
  }

  // A run of the system in which one worker takes all the turns is that worker's play, and
  // the others stand still.
  lemma {:induction false} PlayIsWatch(code: seq<Word32>, cfg: Config, x: Watched, hs: seq<Happening>, k: nat)
    requires Tracked(cfg, x) && k < cfg.vcpus && OnlyWorker(hs, k) && SlotOk(SlotOf(cfg, k))
    ensures var y := Watch(code, cfg, x, hs).sys;
      && EffectOf(y, k) == Play(code, cfg.munmap, SlotOf(cfg, k), EffectOf(x.sys, k), hs)
      && forall j :: 0 <= j < cfg.vcpus && j != k ==> y.threads[j] == x.sys.threads[j]
    decreases |hs|
  {
    hide Act;
    if hs != [] {
      PlayIsWatch(code, cfg, x, hs[..|hs| - 1], k);
    }
  }
}
