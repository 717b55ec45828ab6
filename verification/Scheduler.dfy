/** The scheduler: its requests, its cache and the copies in flight, driven by plans and by events from outside. */
module Scheduler {
  import opened Prelude
  import opened PageTree
  import opened BlockEvents
  import opened CacheState
  import opened CacheRefs
  import opened RequestState
  import DecodeEvents
  import opened PrefillEvents
  import opened WriteBackEvents
  import opened World
  import opened SchedulerState

  // ---------------------------------------------------------------- the scheduler

  /** What one plan hands to the executor: token counts of the scheduled requests, and page copies with their ids. */
  datatype Plan = Plan(forward: seq<(string, int)>, copies: seq<(nat, seq<(nat, nat)>)>)

  /** The outside world as one round of planning sees it: the order of candidates, which of them find a free request
      slot, and which pass the admission check of the paged-cache groups, at first and for a decode right after. */
  datatype Round = Round(order: seq<string>, slots: set<string>, admitted: set<string>, admittedNext: set<string>, now: int)

  datatype Event =
    | Submit(id: string, tokens: seq<Token>, prefillLength: int)
    | NextPlan(round: Round)
    | Extend(id: string, results: seq<Token>, at: int)
    | Reserve(id: string, value: int)
    | Done(id: string, time: int)
    | GiveUp(id: string)
    | CopyDone(op: nat)

  class Scheduler {
    const cfg: Config
    const hash: BlockHash
    const deviceTotal: nat
    const hostTotal: nat
    const maxTokens: nat
    const maxBatch: nat
    const mixed: bool
    var cache: Cache
    var requests: Requests
    var ops: map<nat, string>
    var nextOp: nat
    /** The pairs each outstanding operation copies, and the operations whose request no longer waits for them. */
    ghost var flights: map<nat, seq<(nat, nat)>>
    ghost var stale: set<nat>

    function Fixed(): Setup {
      Setup(cfg, hash, deviceTotal, hostTotal)
    }

    ghost predicate Valid()
      reads this
    {
      && Sane(cache, requests, Fixed()) && cfg.size > 0
      && CopiesOk(requests, ops, flights, stale, nextOp)
    }

    constructor (cfg: Config, hash: BlockHash, deviceTotal: nat, hostTotal: nat, maxTokens: nat, maxBatch: nat, mixed: bool)
      requires cfg.size > 0
      ensures Valid() && requests == map[] && ops == map[] && stale == {}
      ensures cache == EmptyCache(hash, deviceTotal, hostTotal)
    {
      this.cfg, this.hash, this.deviceTotal, this.hostTotal := cfg, hash, deviceTotal, hostTotal;
      this.maxTokens, this.maxBatch, this.mixed := maxTokens, maxBatch, mixed;
      cache, requests, ops, nextOp := EmptyCache(hash, deviceTotal, hostTotal), map[], map[], 1;
      flights, stale := map[], {};
      new;
      SaneEmpty(Fixed());
      CopiesNone();
    }

    /** Take over the outcome of a step that starts and ends no copy. */
    method Store(id: string, c: Cache, r: Request)
      requires Valid() && id in requests && StepDone(cache, requests, id, c, r, Fixed()) && SameFlight(requests[id], r)
      modifies this`cache, this`requests
      ensures Valid() && cache == c && requests == old(requests)[id := r]
    {
      CopiesSame(requests, requests[id := r], id, ops, flights, stale, nextOp);
      cache, requests := c, requests[id := r];
    }

    /** Take over the outcome of a step after which the request waits for a copy, and give the copy an operation id. */
    method StoreStarted(id: string, c: Cache, r: Request) returns (copy: (nat, seq<(nat, nat)>))
      requires Valid() && id in requests && StepDone(cache, requests, id, c, r, Fixed()) && !Flying(requests[id]) && Flying(r)
      modifies this`cache, this`requests, this`ops, this`nextOp, this`flights
      ensures Valid() && cache == c && requests == old(requests)[id := r]
      ensures copy == (old(nextOp), r.pairs) && nextOp == old(nextOp) + 1 && ops == old(ops)[old(nextOp) := id]
    {
      CopiesStarted(requests, requests[id := r], id, ops, flights, stale, nextOp);
      copy := (nextOp, r.pairs);
      cache, requests, ops, nextOp, flights := c, requests[id := r], ops[nextOp := id], nextOp + 1, flights[nextOp := r.pairs];
    }

    /** Take over the outcome of a step after which the request waits for no copy; the one it waited for, if any, is stale. */
    method StoreEnded(id: string, c: Cache, r: Request)
      requires Valid() && id in requests && StepDone(cache, requests, id, c, r, Fixed()) && !Flying(r)
      modifies this`cache, this`requests, this`stale
      ensures Valid() && cache == c && requests == old(requests)[id := r]
      ensures if Flying(old(requests)[id]) then exists op :: LiveOp(ops, old(stale), op, id) && stale == old(stale) + {op} else stale == old(stale)
    {
      if Flying(requests[id]) {
        ghost var op := CopiesLive(requests, ops, flights, stale, nextOp, id);
        CopiesStale(requests, requests[id := r], id, ops, flights, stale, nextOp, op);
        stale := stale + {op};
      } else {
        CopiesSame(requests, requests[id := r], id, ops, flights, stale, nextOp);
      }
      cache, requests := c, requests[id := r];
    }

    // -------------------------------------------------------------- events from outside

    /** A new request; an id already in use is ignored, a prefill length out of range refused. */
    method SubmitRequest(id: string, tokens: seq<Token>, prefillLength: int) returns (threw: bool)
      requires Valid()
      modifies this`requests
      ensures Valid() && (threw <==> prefillLength < -1 || prefillLength > |tokens|)
      ensures threw || id in old(requests) ==> requests == old(requests)
      ensures !threw && id !in old(requests) ==>
                requests == old(requests)[id := Request(tokens, if prefillLength < 0 then |tokens| else prefillLength,
                                                        Submitted, None, None, [], 0, 0, 0, 0, [])]
    {
      threw := prefillLength < -1 || prefillLength > |tokens|;
      if !threw && id !in requests {
        var prefill := if prefillLength < 0 then |tokens| else prefillLength;
        var r := Request(tokens, prefill, Submitted, None, None, [], 0, 0, 0, 0, []);
        SaneSubmit(cache, requests, id, r, Fixed());
        CopiesAdded(requests, id, r, ops, flights, stale, nextOp);
        requests := requests[id := r];
      }
    }

    method HandleExtend(id: string, more: seq<Token>, now: int) returns (threw: bool)
      requires Valid()
      modifies this`cache, this`requests
      ensures !threw ==> Valid()
      ensures threw <==> id in old(requests) && DecodeEvents.ResultThrows(old(requests)[id])
      ensures OnlyChanged(old(requests), requests, id) && Grows(old(cache).log, cache.log)
      ensures !threw && id in old(requests) && old(requests)[id].phase != Finished ==> requests[id].tokens == old(requests)[id].tokens + more
    {
      threw := false;
      if id in requests {
        var c, r;
        c, r, threw := ExtendOne(cache, requests, id, more, now, Fixed());
        if !threw { Store(id, c, r); }
      }
    }

    method HandleReserve(id: string, value: int) returns (threw: bool)
      requires Valid()
      modifies this`cache, this`requests
      ensures Valid()
      ensures threw <==> id in old(requests) && old(requests)[id].phase !in {Decoding, Retracting, Retracted, Finished}
      ensures cache == old(cache) && OnlyChanged(old(requests), requests, id)
    {
      threw := false;
      if id in requests {
        var r;
        r, threw := ReserveOne(cache, requests, id, value, Fixed());
        Store(id, cache, r);
      }
    }

    method HandleFinish(id: string, now: int) returns (threw: bool)
      requires Valid()
      modifies this`cache, this`requests
      ensures !threw ==> Valid()
      ensures OnlyChanged(old(requests), requests, id) && Grows(old(cache).log, cache.log)
      ensures !threw && id in old(requests) ==> requests[id].phase in {Finished, Draining, WritingBack}
      ensures !threw && id in old(requests) && old(requests)[id].phase in {PrefillDone, Decoding} ==>
                Settled(cache, requests[id], KeyPages(old(requests)[id].tokens, cfg.size), cfg)
    {
      threw := false;
      if id in requests {
        var c, r;
        c, r, threw := FinishOne(cache, requests, id, now, Fixed());
        if !threw { Store(id, c, r); }
      }
    }

    /** An abort while a copy is in flight after a retraction leaves the copy stale: the executor still makes it, but the
        request has let go of its pages, and the tree may give them to others. */
    method HandleAbort(id: string) returns (threw: bool)
      requires Valid()
      modifies this`cache, this`requests, this`stale
      ensures !threw ==> Valid()
      ensures threw <==> id in old(requests) && old(requests)[id].phase == WritingBack
      ensures OnlyChanged(old(requests), requests, id) && Grows(old(cache).log, cache.log)
      ensures !threw && id in old(requests) ==> requests[id].phase == Finished && Bare(requests[id])
      ensures if !threw && id in old(requests) && old(requests)[id].phase == Retracting
              then exists op :: LiveOp(ops, old(stale), op, id) && stale == old(stale) + {op} else stale == old(stale)
    {
      threw := false;
      if id in requests {
        var c, r;
        c, r, threw := AbortOne(cache, requests, id, Fixed());
        if !threw { StoreEnded(id, c, r); }
      }
    }

    method CopiesDone(ghost op: nat, id: string) returns (threw: bool)
      requires Valid() && id in requests
      modifies this`cache, this`requests, this`stale
      ensures !threw ==> Valid()
      ensures threw <==> !Flying(old(requests)[id])
      ensures OnlyChanged(old(requests), requests, id) && Grows(old(cache).log, cache.log)
      ensures !threw ==> TierKept(old(cache).tree, cache.tree, Host)
      ensures !threw ==> requests[id].phase == if old(requests)[id].phase == WritingBack then Finished else Retracted
      ensures !threw ==> exists o :: LiveOp(ops, old(stale), o, id) && stale == old(stale) + {o}
      ensures old(stale) <= stale && (!threw && LiveOp(ops, old(stale), op, id) ==> stale == old(stale) + {op})
    {
      var c, r;
      if LiveOp(ops, stale, op, id) && Flying(requests[id]) {
        forall o | LiveOp(ops, stale, o, id) ensures o == op { CopiesUnique(requests, ops, flights, stale, nextOp, o, op, id); }
      }
      c, r, threw := CopiedOne(cache, requests, id, Fixed());
      if !threw { StoreEnded(id, c, r); }
    }

    /** The executor reports a copy. If its operation is not stale, it is the one its request waits for. A stale one is ignored
        or fails, except that after its id was submitted anew it ends that request's wait for another copy, which goes stale
        in its turn though the executor may still be making it. */
    method HandleWriteBackDone(op: nat) returns (threw: bool)
      requires Valid()
      modifies this`cache, this`requests, this`ops, this`flights, this`stale
      ensures !threw ==> Valid()
      ensures ops == old(ops) - {op} && Grows(old(cache).log, cache.log)
      ensures threw <==> op in old(ops) && old(ops)[op] in old(requests) && !Flying(old(requests)[old(ops)[op]])
      ensures (threw ==> op in old(stale)) && (op !in old(ops) ==> stale == old(stale))
      ensures op in old(ops) && op !in old(stale) ==>
                var id := old(ops)[op];
                && Waits(old(requests), id, old(flights)[op]) && stale == old(stale)
                && OnlyChanged(old(requests), requests, id)
                && requests[id].phase == if old(requests)[id].phase == WritingBack then Finished else Retracted
      ensures op in old(stale) && old(ops)[op] in old(requests) && Flying(old(requests)[old(ops)[op]]) ==>
                exists other :: LiveOp(old(ops), old(stale), other, old(ops)[op]) && stale == old(stale) - {op} + {other}
    {
      threw := false;
      CopiesWait(requests, ops, flights, stale, nextOp, op);
      if op in ops && ops[op] in requests {
        threw := CopiesDone(op, ops[op]);
      }
      if !threw { CopiesForgotten(requests, ops, flights, stale, nextOp, op); }
      stale := stale - {op};
      ops, flights := ops - {op}, flights - {op};
    }

    // -------------------------------------------------------------- a plan

    /** One request's turn when write-backs are handed out: a draining one goes on to write back, or is let go if it has
        nothing to copy. */
    method CommitNext(id: string, done: seq<(nat, seq<(nat, nat)>)>) returns (copies: seq<(nat, seq<(nat, nat)>)>)
      requires Valid() && id in requests
      modifies this`cache, this`requests, this`ops, this`nextOp, this`flights
      ensures Valid() && OnlyChanged(old(requests), requests, id) && Grows(old(cache).log, cache.log)
      ensures Committed(old(requests)[id], requests[id], copies, ops, nextOp, id)
      ensures forall o, pairs {:trigger CopyFor(copies, ops, nextOp, o, pairs)} ::
                CopyFor(done, old(ops), old(nextOp), o, pairs) ==> CopyFor(copies, ops, nextOp, o, pairs)
    {
      copies := done;
      if requests[id].phase == Draining {
        var c, r := SchedulerState.CommitOne(cache, requests, id, Fixed());
        if requests[id].pairs == [] {
          Store(id, c, r);
        } else {
          var copy := StoreStarted(id, c, r);
          copies := copies + [copy];
          assert copies[|done|] == copy;
          forall o, kept | CopyFor(done, old(ops), old(nextOp), o, kept) ensures CopyFor(copies, ops, nextOp, o, kept) {
            CopyMore(done, old(ops), old(nextOp), o, kept, [copy], id);
          }
        }
      }
    }

    /** Every draining request goes on to write back, its pairs handed out under an id that leads back to it; one with
        nothing to copy is let go. No other request changes. */
    method NewWriteBackOperations() returns (copies: seq<(nat, seq<(nat, nat)>)>)
      requires Valid()
      modifies this`cache, this`requests, this`ops, this`nextOp, this`flights
      ensures Valid() && requests.Keys == old(requests).Keys && Grows(old(cache).log, cache.log)
      ensures cfg.noHost ==> requests == old(requests)
      ensures !cfg.noHost ==> forall id :: id in requests ==> Committed(old(requests)[id], requests[id], copies, ops, nextOp, id)
    {
      copies := [];
      if cfg.noHost { return; }
      var todo := requests.Keys;
      while todo != {}
        invariant Valid() && AllCommitted(old(requests), requests, todo, copies, ops, nextOp) && Grows(old(cache).log, cache.log)
        decreases todo
      {
        var id :| id in todo;
        copies := CommitOne(old(requests), todo, id, copies);
        todo := todo - {id};
      }
    }

    method CommitOne(ghost start: Requests, ghost todo: set<string>, id: string, done: seq<(nat, seq<(nat, nat)>)>)
      returns (copies: seq<(nat, seq<(nat, nat)>)>)
      requires Valid() && id in todo && AllCommitted(start, requests, todo, done, ops, nextOp)
      modifies this`cache, this`requests, this`ops, this`nextOp, this`flights
      ensures Valid() && AllCommitted(start, requests, todo - {id}, copies, ops, nextOp) && Grows(old(cache).log, cache.log)
    {
      copies := CommitNext(id, done);
      CommittedMore(start, old(requests), requests, todo, id, done, old(ops), old(nextOp), copies, ops, nextOp);
    }

    method EraseFinished()
      requires Valid()
      modifies this`requests
      ensures Valid() && requests.Keys <= old(requests).Keys
      ensures forall id :: id in requests ==> requests[id] == old(requests)[id] && requests[id].phase != Finished
      ensures forall id :: id in old(requests) && old(requests)[id].phase != Finished ==> id in requests
    {
      var todo := requests.Keys;
      while todo != {}
        invariant Valid() && Erasing(old(requests), requests, todo)
        decreases todo
      {
        var id :| id in todo;
        todo := todo - {id};
        if requests[id].phase == Finished { EraseOne(id); }
      }
    }

    method EraseOne(id: string)
      requires Valid() && id in requests && requests[id].phase == Finished
      modifies this`requests
      ensures Valid() && requests == old(requests) - {id}
    {
      SaneErase(cache, requests, id, Fixed());
      CopiesErased(requests, id, ops, flights, stale, nextOp);
      requests := requests - {id};
    }

    /** Schedule one prefill chunk. */
    method RunChunk(id: string, budget: int, round: Round) returns (took: bool, threw: bool)
      requires Valid() && id in requests && requests[id].phase == Prefilling && budget > 0
      modifies this`cache, this`requests
      ensures !threw && Valid() && OnlyChanged(old(requests), requests, id) && Grows(old(cache).log, cache.log)
      ensures took ==> 0 < requests[id].size <= budget
    {
      var c, r;
      c, r, took, threw := ChunkOne(cache, requests, id, budget, id in round.admitted, round.now, Fixed());
      Store(id, c, r);
    }

    /** Schedule a first chunk. */
    method RunFirst(id: string, budget: int, round: Round) returns (took: bool, threw: bool)
      requires Valid() && id in requests && requests[id].phase == Submitted && budget > 0
      modifies this`cache, this`requests
      ensures threw ==> Breaks(old(requests)[id], cfg)
      ensures OnlyChanged(old(requests), requests, id) && Grows(old(cache).log, cache.log)
      ensures !threw ==> Valid()
      ensures took && !threw ==> 0 <= requests[id].size <= budget && requests[id].phase in {Prefilling, PrefillDone}
      ensures took && !threw && requests[id].size == 0 ==> requests[id].phase == PrefillDone
    {
      var c, r;
      c, r, took, threw :=
        FirstOne(cache, requests, id, budget, id in round.slots, id in round.admitted, round.now, Fixed());
      if !threw { Store(id, c, r); }
    }

    /** Schedule one decode step. */
    method RunDecode(id: string, admit: bool, now: int) returns (took: bool, threw: bool)
      requires Valid() && id in requests && requests[id].phase in {PrefillDone, Decoding}
      modifies this`cache, this`requests
      ensures threw <==> old(requests)[id].phase == Decoding && old(requests)[id].reserve < 0
      ensures OnlyChanged(old(requests), requests, id) && Grows(old(cache).log, cache.log)
      ensures !threw ==> Valid()
      ensures took && !threw ==> requests[id].phase == Decoding
    {
      var c, r;
      c, r, took, threw := DecodeOne(cache, requests, id, admit, now, Fixed());
      if !threw { Store(id, c, r); }
    }

    /** Schedule the recovery of a retracted request. */
    method RunRecovery(id: string, round: Round) returns (took: bool, threw: bool)
      requires Valid() && id in requests && requests[id].phase == Retracted
      modifies this`cache, this`requests
      ensures !threw && Valid() && OnlyChanged(old(requests), requests, id) && Grows(old(cache).log, cache.log)
      ensures took ==> requests[id].phase == Decoding
    {
      var c, r;
      c, r, took, threw :=
        RecoverOne(cache, requests, id, id in round.slots, id in round.admitted, round.now, Fixed());
      Store(id, c, r);
    }

    /** One candidate's turn: the tokens it was scheduled for, if any, and whether the round must end. */
    method Turn(id: string, budget: int, pushedPrefill: bool, round: Round)
      returns (tokens: Option<int>, prefill: bool, stop: bool, threw: bool, ghost culprit: Request)
      requires Valid() && id in requests && budget > 0
      modifies this`cache, this`requests
      ensures OnlyChanged(old(requests), requests, id) && Grows(old(cache).log, cache.log)
      ensures !threw ==> Valid()
      ensures threw ==> Breaks(culprit, cfg)
      ensures !threw && prefill ==> tokens.Some? && 0 < tokens.value <= budget
      ensures !threw && tokens.Some? && !prefill ==> tokens.value == cfg.decode
    {
      tokens, prefill, stop, threw, culprit := None, false, false, false, requests[id];
      var took := false;
      var phase := requests[id].phase;
      if phase == Prefilling {
        took, threw := RunChunk(id, budget, round);
        if took { tokens, prefill := Some(requests[id].size), true; }
      } else if phase == Submitted {
        took, threw := RunFirst(id, budget, round);
        if took && !threw {
          if requests[id].size > 0 {
            tokens, prefill := Some(requests[id].size), true;
          } else {
            culprit := requests[id];
            took, threw := RunDecode(id, id in round.admittedNext, round.now);
            if took && !threw { tokens := Some(cfg.decode); }
          }
        }
      } else if phase in {PrefillDone, Decoding, Retracted} && !mixed && pushedPrefill {
        stop := true;
      } else if phase in {PrefillDone, Decoding} {
        took, threw := RunDecode(id, id in round.admitted, round.now);
        if took && !threw { tokens := Some(cfg.decode); }
      } else if phase == Retracted {
        took, threw := RunRecovery(id, round);
        if took { tokens := Some(cfg.decode); }
      }
    }

    /** The longest decoding request; the first of them in order. */
    method Victim(order: seq<string>) returns (id: Option<string>)
      ensures id.Some? ==> id.value in requests && requests[id.value].phase in {PrefillDone, Decoding} && id.value in order
      ensures forall o :: o in order && o in requests && requests[o].phase in {PrefillDone, Decoding}
                          ==> id.Some? && |requests[o].tokens| <= |requests[id.value].tokens|
    {
      id := None;
      var i := 0;
      while i < |order|
        invariant 0 <= i <= |order|
        invariant id.Some? ==> id.value in requests && requests[id.value].phase in {PrefillDone, Decoding} && id.value in order[..i]
        invariant forall o :: o in order[..i] && o in requests && requests[o].phase in {PrefillDone, Decoding}
                              ==> id.Some? && |requests[o].tokens| <= |requests[id.value].tokens|
      {
        var o := order[i];
        if o in requests && requests[o].phase in {PrefillDone, Decoding} {
          if id.None? || |requests[id.value].tokens| < |requests[o].tokens| { id := Some(o); }
        }
        assert order[..i + 1] == order[..i] + [o];
        i := i + 1;
      }
      assert order[..i] == order;
    }

    /** Push a decoding request off the device, and hand its copies to the executor if there are any. */
    method RetractOne(id: string, now: int) returns (copies: seq<(nat, seq<(nat, nat)>)>, threw: bool)
      requires Valid() && id in requests && requests[id].phase in {PrefillDone, Decoding}
      modifies this`cache, this`requests, this`ops, this`nextOp, this`flights
      ensures OnlyChanged(old(requests), requests, id) && Grows(old(cache).log, cache.log)
      ensures !threw ==> Valid()
      ensures threw ==> Breaks(old(requests)[id], cfg)
      ensures !threw ==> if requests[id].phase == Retracting then CopyFor(copies, ops, nextOp, id, requests[id].pairs) else copies == []
    {
      copies := [];
      var c, r;
      c, r, threw := RetractFrom(cache, requests, id, now, Fixed());
      if !threw && r.phase == Retracting {
        var copy := StoreStarted(id, c, r);
        copies := [copy];
        assert copies[0] == copy;
      } else if !threw {
        Store(id, c, r);
      }
    }

    /** Give each candidate its turn while budget and batch last; if nothing could run, retract the longest decode. */
    method NewForwardOperations(round: Round) returns (plan: Plan, threw: bool, ghost culprit: Request)
      requires Valid()
      modifies this`cache, this`requests, this`ops, this`nextOp, this`flights
      ensures !threw ==> Valid() && requests.Keys == old(requests).Keys
      ensures Grows(old(cache).log, cache.log)
      ensures threw ==> Breaks(culprit, cfg)
      ensures !threw ==> |plan.forward| <= maxBatch && (plan.forward != [] ==> plan.copies == [])
      ensures !threw ==> Total(plan.forward) <= Max(maxTokens, maxTokens + cfg.decode - 1)
    {
      plan, threw, culprit := Plan([], []), false, Request([], 0, Finished, None, None, [], 0, 0, 0, 0, []);
      var budget: int := maxTokens;
      var pushedPrefill, stop := false, false;
      var i := 0;
      while i < |round.order| && !stop && !threw && budget > 0 && |plan.forward| != maxBatch
        invariant 0 <= i <= |round.order| && plan.copies == [] && |plan.forward| <= maxBatch
        invariant !threw ==> Valid()
        invariant requests.Keys == old(requests).Keys && Grows(old(cache).log, cache.log)
        invariant threw ==> Breaks(culprit, cfg)
        invariant Total(plan.forward) == maxTokens - budget && budget >= Min(0, 1 - cfg.decode)
        decreases |round.order| - i
      {
        var id := round.order[i];
        if id in requests {
          var tokens, prefill;
          tokens, prefill, stop, threw, culprit := Turn(id, budget, pushedPrefill, round);
          if tokens.Some? && !threw {
            budget, pushedPrefill := budget - tokens.value, pushedPrefill || prefill;
            TotalMore(plan.forward, id, tokens.value);
            plan := plan.(forward := plan.forward + [(id, tokens.value)]);
          }
        }
        i := i + 1;
      }
      if !threw && plan.forward == [] {
        var victim := Victim(round.order);
        if victim.Some? {
          var copies;
          culprit := requests[victim.value];
          copies, threw := RetractOne(victim.value, round.now);
          plan := Plan([], copies);
        }
      }
    }

    /** One round: hand out pending write-backs, forget finished requests, schedule the rest. */
    method NextExecutionPlan(round: Round) returns (plan: Plan, threw: bool, ghost culprit: Request)
      requires Valid()
      modifies this`cache, this`requests, this`ops, this`nextOp, this`flights
      ensures !threw ==> Valid() && |plan.forward| <= maxBatch
      ensures Grows(old(cache).log, cache.log)
      ensures !threw ==> Total(plan.forward) <= Max(maxTokens, maxTokens + cfg.decode - 1)
      ensures threw ==> Breaks(culprit, cfg)
    {
      var copies := NewWriteBackOperations();
      EraseFinished();
      plan, threw, culprit := NewForwardOperations(round);
      plan := plan.(copies := copies + plan.copies);
    }

    // -------------------------------------------------------------- whole runs

    /** One event. The log only grows, and no copy goes stale but by an abort of a retracting request, or by the report of
        one that was stale already. */
    method Handle(e: Event) returns (threw: bool)
      requires Valid()
      modifies this`cache, this`requests, this`ops, this`nextOp, this`flights, this`stale
      ensures !threw ==> Valid()
      ensures Grows(old(cache).log, cache.log)
      ensures stale == {} || old(stale) != {} || (e.GiveUp? && e.id in old(requests) && old(requests)[e.id].phase == Retracting)
    {
      match e
      case Submit(id, tokens, prefillLength) => threw := SubmitRequest(id, tokens, prefillLength);
      case NextPlan(round) =>
        var plan;
        ghost var culprit;
        plan, threw, culprit := NextExecutionPlan(round);
      case Extend(id, results, at) => threw := HandleExtend(id, results, at);
      case Reserve(id, value) => threw := HandleReserve(id, value);
      case Done(id, time) => threw := HandleFinish(id, time);
      case GiveUp(id) => threw := HandleAbort(id);
      case CopyDone(op) => threw := HandleWriteBackDone(op);
    }

    /** Any sequence of submissions, plans and events: up to the first exception, if there is one, the invariant of the
        whole scheduler holds after every event, and what a listener was told is never taken back. */
    method Run(events: seq<Event>) returns (handled: nat, threw: bool)
      requires Valid()
      modifies this`cache, this`requests, this`ops, this`nextOp, this`flights, this`stale
      ensures handled <= |events| && (!threw ==> Valid() && handled == |events|)
      ensures Grows(old(cache).log, cache.log)
    {
      handled, threw := 0, false;
      while handled < |events| && !threw
        invariant handled <= |events| && (!threw ==> Valid()) && Grows(old(cache).log, cache.log)
        decreases |events| - handled, !threw
      {
        threw := Handle(events[handled]);
        if !threw { handled := handled + 1; }
      }
    }
  }
}
