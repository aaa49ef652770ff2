/** What an orchestrator meets outside itself: model replies, memory writes, and time spent asleep.

    Replies are arbitrary. They are recorded as they arrive, so that what is stored can be compared with
    what was said. */
module Outside {
  import opened Models
  import opened Controller

  /** A model's reply or a memory write's outcome, and what schema validation would say if it does not fit. */
  datatype Reply = Reply(answer: Input, complaint: string)

  /** A look at the stored decision while waiting. */
  datatype Poll = Poll(at: nat, found: Option<bool>)

  /** The runner waits for something from outside. */
  predicate Asks(k: Ctl) {
    k.Planning? || k.Assessing? || k.Calling? || k.Synthesizing? || k.Finishing?
  }

  function OrComplain(fits: bool, r: Reply): Input {
    if fits || r.answer.Raised? then r.answer else Raised(false, r.complaint)
  }

  function UnderstoodPlan(r: Reply): Input {
    OrComplain(r.answer.Proposed? && ValidProposal(r.answer.items, r.answer.ids), r)
  }

  function UnderstoodRisk(r: Reply): Input {
    OrComplain(r.answer.Assessed?, r)
  }

  /** The verifier's notes have 1 to 4000 characters. */
  function UnderstoodWork(agent: string, r: Reply): Input {
    OrComplain(if agent == VERIFIER then r.answer.Judged? && 1 <= |r.answer.notes| <= 4000 else r.answer.Answered?, r)
  }

  function UnderstoodReport(r: Reply): Input {
    OrComplain(r.answer.Synthesized?, r)
  }

  /** A memory write succeeds or raises; it is never a provider error. */
  function UnderstoodWrite(r: Reply): Input {
    if r.answer.Raised? then Raised(false, r.answer.message) else Go
  }

  /** What a reply means where the runner stands. */
  function Understood(k: Ctl, t: TaskRow, r: Reply): Input {
    match k
    case Planning => UnderstoodPlan(r)
    case Assessing => UnderstoodRisk(r)
    case Calling(_, i, _) => UnderstoodWork(if i < |t.steps| then t.steps[i].agent else "", r)
    case Synthesizing => UnderstoodReport(r)
    case Finishing(_) => UnderstoodWrite(r)
    case _ => Go
  }

  /** A reply that fits is taken as it is, an exception is passed on as it is, and what does not fit becomes the
      validation's complaint. */
  lemma RepliesAreTakenAsTheyAre(r: Reply, agent: string)
    ensures r.answer.Raised? ==>
              UnderstoodPlan(r) == UnderstoodRisk(r) == UnderstoodWork(agent, r) == UnderstoodReport(r) == r.answer
    ensures r.answer.Answered? && agent != VERIFIER ==> UnderstoodWork(agent, r) == r.answer
    ensures r.answer.Judged? && agent == VERIFIER ==>
              UnderstoodWork(agent, r) ==
                if 1 <= |r.answer.notes| <= 4000 then r.answer else Raised(false, r.complaint)
    ensures r.answer.Proposed? ==>
              UnderstoodPlan(r) ==
                if ValidProposal(r.answer.items, r.answer.ids) then r.answer else Raised(false, r.complaint)
    ensures r.answer.Assessed? ==> UnderstoodRisk(r) == r.answer
    ensures r.answer.Synthesized? ==> UnderstoodReport(r) == r.answer
    ensures !UnderstoodWork(agent, r).Raised? && !UnderstoodPlan(r).Raised? ==>
              UnderstoodWork(agent, r) == UnderstoodPlan(r) == r.answer
  {
  }

  class Surroundings {
    ghost var replies: seq<Reply>
    ghost var polls: seq<Poll>
    /** The clock when the last wait for approval began. */
    ghost var since: nat
    /** Quarter seconds this process has slept. */
    var clock: nat

    constructor ()
      ensures replies == [] && polls == [] && clock == 0
    {
      replies, polls, since, clock := [], [], 0, 0;
    }

    method Consult() returns (r: Reply)
      modifies this`replies
      ensures replies == old(replies) + [r]
    {
      r := *;
      replies := replies + [r];
    }

    method Rest(quarters: nat)
      modifies this`clock
      ensures clock == old(clock) + quarters
    {
      clock := clock + quarters;
    }

    ghost method StartWait()
      modifies this`since
      ensures since == clock
    {
      since := clock;
    }
  }
}
