/** The interview coach of pages/InterviewCoach.tsx.

    The coach's state is the transcript, the text in the answer box, the `loading`
    flag and the optional feedback. Each `await` splits a handler in two: the step
    that issues the gateway call (recorded as `pending`) and the step that applies
    its answer. `calls` lists every gateway call issued, so that the number of
    feedback requests can be stated. The session is first specified as functions
    on a `Session` value; the class `InterviewCoach` implements the handlers on
    fields and is proved against those functions. */
module Interview {
  import opened Wrappers
  import opened Types
  import Gateway

  const ClosingMessage := "Thank you for these responses. I've prepared a feedback report for you above."

  /** Once this many answers are in the transcript, feedback is requested instead of a question. */
  const AnswersBeforeFeedback: nat := 4

  /** A gateway call issued by the coach. */
  datatype Request =
    | OpeningQuestion                     // generateInterviewQuestion(user, []) from startInterview
    | NextQuestion(history: seq<Turn>)    // generateInterviewQuestion(user, newMessages)
    | FeedbackReport(history: seq<Turn>)  // getInterviewFeedback(newMessages)

  datatype Session = Session(
    messages: seq<Turn>,
    userInput: string,
    loading: bool,
    feedback: Option<Feedback>,
    pending: Option<Request>,
    calls: seq<Request>)

  /** The state when the page is first shown. */
  const Initial := Session([], "", false, None, None, [])

  /** `messages.filter(m => m.speaker === 'User').length`. */
  function UserTurns(ts: seq<Turn>): (n: nat)
    ensures n <= |ts|
  {
    if ts == [] then 0 else (if ts[0].speaker == User then 1 else 0) + UserTurns(ts[1..])
  }

  /** The number of feedback requests among the calls. */
  function FeedbackCalls(rs: seq<Request>): nat {
    if rs == [] then 0 else (if rs[0].FeedbackReport? then 1 else 0) + FeedbackCalls(rs[1..])
  }

  lemma {:induction false} UserTurnsAppend(a: seq<Turn>, b: seq<Turn>)
    ensures UserTurns(a + b) == UserTurns(a) + UserTurns(b)
  {
    if a == [] {
      assert a + b == b;
    } else {
      assert (a + b)[1..] == a[1..] + b;
      UserTurnsAppend(a[1..], b);
    }
  }

  lemma {:induction false} FeedbackCallsAppend(a: seq<Request>, b: seq<Request>)
    ensures FeedbackCalls(a + b) == FeedbackCalls(a) + FeedbackCalls(b)
  {
    if a == [] {
      assert a + b == b;
    } else {
      assert (a + b)[1..] == a[1..] + b;
      FeedbackCallsAppend(a[1..], b);
    }
  }

  /** The invariant every reachable session keeps: a pending call keeps `loading`
      set and is the last call issued; feedback is only shown once loading has
      ended and the answer box is empty; the answer box is empty while feedback is
      being fetched. */
  ghost predicate Consistent(s: Session) {
    && (s.pending.Some? ==> s.loading && s.calls != [] && s.calls[|s.calls| - 1] == s.pending.value)
    && (s.feedback.Some? ==> !s.loading && s.userInput == "")
    && (s.pending.Some? && s.pending.value.FeedbackReport? ==> s.userInput == "")
  }

  // ---------------------------------------------------------------------------
  // The handlers, as functions on sessions

  /** `startInterview` up to its `await`: loading, feedback cleared, opening question
      requested; the transcript and the box stay as they were until the question arrives. */
  function Started(s: Session): (r: Session)
    ensures s.pending.None? && Consistent(s) ==> Consistent(r)
    ensures r.loading && r.feedback.None? && r.pending == Some(OpeningQuestion)
    ensures r.messages == s.messages && r.userInput == s.userInput
  {
    s.(loading := true, feedback := None, pending := Some(OpeningQuestion), calls := s.calls + [OpeningQuestion])
  }

  /** The guard of `handleSubmit`. */
  predicate Accepts(s: Session) {
    s.userInput != "" && !s.loading
  }

  /** The request `handleSubmit` issues for the transcript `m` that includes the new answer. */
  function RequestFor(m: seq<Turn>): Request {
    if UserTurns(m) >= AnswersBeforeFeedback then FeedbackReport(m) else NextQuestion(m)
  }

  /** `handleSubmit` up to its `await`; the feedback shown is never touched. */
  function Submitted(s: Session): (r: Session)
    ensures Consistent(s) ==> Consistent(r)
    ensures r.feedback == s.feedback
    ensures Accepts(s) ==> r.pending.Some? && r.calls == s.calls + [r.pending.value]
  {
    if !Accepts(s) then s
    else
      var m := s.messages + [Turn(User, s.userInput)];
      s.(messages := m, userInput := "", loading := true, pending := Some(RequestFor(m)),
         calls := s.calls + [RequestFor(m)])
  }

  /** A question arrives: the opening one replaces the transcript, a later one is appended. */
  function QuestionReceived(s: Session, body: Option<string>): (r: Session)
    requires s.pending.Some? && !s.pending.value.FeedbackReport?
    ensures Consistent(s) ==> Consistent(r)
    ensures !r.loading && r.pending.None? && r.calls == s.calls && r.feedback == s.feedback
    ensures r.messages != [] && r.messages[|r.messages| - 1] == Turn(AI, Gateway.InterviewQuestion(body))
  {
    var q := Turn(AI, Gateway.InterviewQuestion(body));
    s.(messages := if s.pending.value.OpeningQuestion? then [q] else s.messages + [q],
       loading := false, pending := None)
  }

  /** The feedback arrives: it is stored, whether present or not, and the closing message is appended. */
  function FeedbackReceived(s: Session, body: Option<string>, parse: string -> Option<Feedback>): (r: Session)
    requires s.pending.Some? && s.pending.value.FeedbackReport?
    ensures Consistent(s) ==> Consistent(r)
    ensures !r.loading && r.pending.None? && r.calls == s.calls && r.userInput == s.userInput
  {
    s.(feedback := Gateway.InterviewFeedback(body, parse),
       messages := s.messages + [Turn(AI, ClosingMessage)],
       loading := false, pending := None)
  }

  /** The gateway call threw: nothing after the `await` runs, so `loading` stays set. */
  function Aborted(s: Session): (r: Session)
    requires s.pending.Some?
    ensures Consistent(s) ==> Consistent(r)
    ensures r.loading == s.loading && r.pending.None? && r.messages == s.messages
  {
    s.(pending := None)
  }

  /** The answer form is rendered once the transcript is not empty. */
  predicate FormShown(s: Session) {
    s.messages != []
  }

  /** `disabled={loading || !!feedback}` on the answer box, negated. */
  predicate InputEnabled(s: Session)
    ensures InputEnabled(s) && Consistent(s) ==> s.pending.None?
  {
    !s.loading && s.feedback.None?
  }

  /** `disabled={loading || !userInput || !!feedback}` on Send, negated. */
  predicate SendEnabled(s: Session)
    ensures SendEnabled(s) ==> Accepts(s)
  {
    InputEnabled(s) && s.userInput != ""
  }

  /** Typing into the answer box; a box that is not rendered or disabled takes no
      input, and nothing but the box ever changes. */
  function Edited(s: Session, text: string): (r: Session)
    ensures Consistent(s) ==> Consistent(r)
    ensures r.(userInput := s.userInput) == s
    ensures FormShown(s) && InputEnabled(s) ==> r.userInput == text
    ensures !(FormShown(s) && InputEnabled(s)) ==> r == s
  {
    if FormShown(s) && InputEnabled(s) then s.(userInput := text) else s
  }

  // ---------------------------------------------------------------------------
  // Properties of the session

  /** `startInterview` clears the feedback and asks for a question with an empty
      history; once it arrives, the transcript is exactly that one AI turn. */
  lemma StartAsksOpeningQuestion(s: Session, body: Option<string>)
    ensures Started(s).feedback.None? && Started(s).loading
    ensures Started(s).pending == Some(OpeningQuestion)
    ensures QuestionReceived(Started(s), body).messages == [Turn(AI, Gateway.InterviewQuestion(body))]
    ensures !QuestionReceived(Started(s), body).loading
  {
  }

  /** An empty answer or an outstanding call makes `handleSubmit` a no-op. */
  lemma SubmitIgnored(s: Session)
    requires s.userInput == "" || s.loading
    ensures Submitted(s) == s
  {
  }

  /** An accepted answer appends one User turn and clears the box, leaving earlier
      turns alone; below four answers it requests a question, from the fourth on it
      requests feedback, in both cases with the whole new transcript. */
  lemma SubmitAppendsAndRequests(s: Session)
    requires Accepts(s)
    ensures var t := Submitted(s);
      && t.messages == s.messages + [Turn(User, s.userInput)]
      && t.userInput == "" && t.loading
      && UserTurns(t.messages) == UserTurns(s.messages) + 1
      && (UserTurns(s.messages) + 1 < AnswersBeforeFeedback ==> t.pending == Some(NextQuestion(t.messages)))
      && (UserTurns(s.messages) + 1 >= AnswersBeforeFeedback ==> t.pending == Some(FeedbackReport(t.messages)))
      && t.calls == s.calls + [t.pending.value]
  {
    UserTurnsAppend(s.messages, [Turn(User, s.userInput)]);
  }

  /** On consistent sessions the handler's guard and the Send button agree. */
  lemma GuardMatchesSendButton(s: Session)
    requires Consistent(s)
    ensures Accepts(s) <==> SendEnabled(s)
  {
  }

  /** Once feedback is shown, the answer box and Send are disabled and no answer
      is accepted until the session is restarted. */
  lemma FeedbackClosesSession(s: Session, text: string)
    requires Consistent(s) && s.feedback.Some?
    ensures !InputEnabled(s) && !SendEnabled(s)
    ensures Edited(s, text) == s
    ensures Submitted(s) == s
  {
  }

  /** A session waiting for the user: the transcript is under way, nothing is
      pending, no feedback, the box is empty. */
  predicate AwaitingAnswer(s: Session) {
    s.messages != [] && !s.loading && s.pending.None? && s.feedback.None? && s.userInput == ""
  }

  /** One round: type an answer, send it, and receive the question if one was requested. */
  function Round(s: Session, answer: string, reply: Option<string>): Session {
    var t := Submitted(Edited(s, answer));
    if t.pending.Some? && t.pending.value.NextQuestion? then QuestionReceived(t, reply) else t
  }

  function Rounds(s: Session, answers: seq<string>, replies: seq<Option<string>>): Session
    requires |answers| == |replies|
    decreases |answers|
  {
    if answers == [] then s else Rounds(Round(s, answers[0], replies[0]), answers[1..], replies[1..])
  }

  /** While fewer than four answers are in, each round appends one answer and one
      question, issues one question request and no feedback request. */
  lemma {:induction false} RoundsBeforeFeedback(s: Session, answers: seq<string>, replies: seq<Option<string>>)
    requires AwaitingAnswer(s)
    requires |answers| == |replies|
    requires forall i :: 0 <= i < |answers| ==> answers[i] != ""
    requires UserTurns(s.messages) + |answers| < AnswersBeforeFeedback
    ensures var r := Rounds(s, answers, replies);
      && AwaitingAnswer(r)
      && UserTurns(r.messages) == UserTurns(s.messages) + |answers|
      && |r.messages| == |s.messages| + 2 * |answers|
      && r.messages[..|s.messages|] == s.messages
      && |r.calls| == |s.calls| + |answers|
      && FeedbackCalls(r.calls) == FeedbackCalls(s.calls)
    decreases |answers|
  {
    if answers != [] {
      var t := Submitted(Edited(s, answers[0]));
      SubmitAppendsAndRequests(Edited(s, answers[0]));
      FeedbackCallsAppend(s.calls, [t.pending.value]);
      var u := Round(s, answers[0], replies[0]);
      assert u == QuestionReceived(t, replies[0]);
      UserTurnsAppend(t.messages, [u.messages[|u.messages| - 1]]);
      assert u.messages == t.messages + [u.messages[|u.messages| - 1]];
      RoundsBeforeFeedback(u, answers[1..], replies[1..]);
      var r := Rounds(u, answers[1..], replies[1..]);
      assert r.messages[..|u.messages|] == u.messages;
      assert r.messages[..|s.messages|] == u.messages[..|s.messages|];
    }
  }

  /** The whole session: opening question, three rounds, then the fourth answer
      requests feedback, with the full transcript, as the first and only feedback
      request of the session. */
  lemma {:induction false} FourthAnswerRequestsFeedback(
    opening: Option<string>, answers: seq<string>, replies: seq<Option<string>>, last: string)
    requires |answers| == 3 && |replies| == 3
    requires forall i :: 0 <= i < 3 ==> answers[i] != ""
    requires last != ""
    ensures var asked := Submitted(Edited(Rounds(QuestionReceived(Started(Initial), opening), answers, replies), last));
      && |asked.messages| == 8
      && UserTurns(asked.messages) == AnswersBeforeFeedback
      && asked.pending == Some(FeedbackReport(asked.messages))
      && |asked.calls| == 5
      && FeedbackCalls(asked.calls) == 1
      && Consistent(asked)
  {
    var started := QuestionReceived(Started(Initial), opening);
    assert started.messages == [Turn(AI, Gateway.InterviewQuestion(opening))];
    assert UserTurns(started.messages) == 0 by {
      assert started.messages[1..] == [];
    }
    assert FeedbackCalls(started.calls) == 0 by {
      assert started.calls == [OpeningQuestion];
      assert started.calls[1..] == [];
    }
    RoundsBeforeFeedback(started, answers, replies);
    var before := Rounds(started, answers, replies);
    SubmitAppendsAndRequests(Edited(before, last));
    var asked := Submitted(Edited(before, last));
    FeedbackCallsAppend(before.calls, [asked.pending.value]);
    assert [asked.pending.value][1..] == [];
  }

  /** When the feedback arrives, the closing message is appended and loading ends.
      If it parsed, the session is closed; if it did not, the box opens again and
      every further answer requests feedback again. */
  lemma FeedbackArrives(s: Session, body: Option<string>, parse: string -> Option<Feedback>, text: string)
    requires Consistent(s) && s.pending.Some? && s.pending.value.FeedbackReport?
    requires UserTurns(s.messages) >= AnswersBeforeFeedback
    ensures var d := FeedbackReceived(s, body, parse);
      && d.messages == s.messages + [Turn(AI, ClosingMessage)]
      && d.feedback == Gateway.InterviewFeedback(body, parse)
      && !d.loading && d.calls == s.calls
      && (d.feedback.Some? ==> Submitted(Edited(d, text)) == d)
      && (d.feedback.None? && text != "" ==>
            Submitted(Edited(d, text)).pending.value.FeedbackReport?)
  {
    var d := FeedbackReceived(s, body, parse);
    UserTurnsAppend(s.messages, [Turn(AI, ClosingMessage)]);
    assert UserTurns([Turn(AI, ClosingMessage)]) == 0;
    if d.feedback.None? && text != "" {
      SubmitAppendsAndRequests(Edited(d, text));
    }
  }

  // ---------------------------------------------------------------------------
  // The component

  class InterviewCoach {
    const user: UserProfile
    var messages: seq<Turn>
    var userInput: string
    var loading: bool
    var feedback: Option<Feedback>
    var pending: Option<Request>
    ghost var calls: seq<Request>

    ghost function State(): Session
      reads this
    {
      Session(messages, userInput, loading, feedback, pending, calls)
    }

    ghost predicate Valid()
      reads this
    {
      Consistent(State())
    }

    constructor (user: UserProfile)
      ensures Valid() && this.user == user
      ensures State() == Initial
    {
      this.user := user;
      messages, userInput, loading, feedback := [], "", false, None;
      pending := None;
      calls := [];
    }

    /** `startInterview`, up to the question request. */
    method StartInterview()
      requires Valid() && pending.None?
      modifies this
      ensures Valid() && State() == Started(old(State()))
      ensures loading && feedback.None? && pending == Some(OpeningQuestion)
      ensures messages == old(messages) && userInput == old(userInput)
    {
      loading := true;
      feedback := None;
      pending := Some(OpeningQuestion);
      calls := calls + [OpeningQuestion];
    }

    /** `handleSubmit`, up to the gateway call. */
    method HandleSubmit()
      requires Valid()
      modifies this
      ensures Valid() && State() == Submitted(old(State()))
      ensures !Accepts(old(State())) ==> State() == old(State())
      ensures Accepts(old(State())) ==>
        && messages == old(messages) + [Turn(User, old(userInput))]
        && userInput == "" && loading && feedback == old(feedback)
        && pending == Some(RequestFor(messages))
    {
      if userInput == "" || loading {
        return;
      }
      var newMessages := messages + [Turn(User, userInput)];
      messages := newMessages;
      userInput := "";
      loading := true;
      var request := RequestFor(newMessages);
      pending := Some(request);
      calls := calls + [request];
    }

    /** The question request answered with `body`. */
    method ReceiveQuestion(body: Option<string>)
      requires Valid() && pending.Some? && !pending.value.FeedbackReport?
      modifies this
      ensures Valid() && State() == QuestionReceived(old(State()), body)
      ensures !loading && pending.None?
      ensures old(pending) == Some(OpeningQuestion) ==> messages == [Turn(AI, Gateway.InterviewQuestion(body))]
      ensures old(pending) != Some(OpeningQuestion) ==> messages == old(messages) + [Turn(AI, Gateway.InterviewQuestion(body))]
    {
      var question := Gateway.InterviewQuestion(body);
      if pending.value.OpeningQuestion? {
        messages := [Turn(AI, question)];
      } else {
        messages := messages + [Turn(AI, question)];
      }
      loading := false;
      pending := None;
    }

    /** The feedback request answered with `body`. */
    method ReceiveFeedback(body: Option<string>, parse: string -> Option<Feedback>)
      requires Valid() && pending.Some? && pending.value.FeedbackReport?
      modifies this
      ensures Valid() && State() == FeedbackReceived(old(State()), body, parse)
      ensures feedback == Gateway.InterviewFeedback(body, parse)
      ensures messages == old(messages) + [Turn(AI, ClosingMessage)]
      ensures !loading && pending.None?
    {
      feedback := Gateway.InterviewFeedback(body, parse);
      messages := messages + [Turn(AI, ClosingMessage)];
      loading := false;
      pending := None;
    }

    /** The pending gateway call threw: no handler code runs after it. */
    method RequestThrew()
      requires Valid() && pending.Some?
      modifies this
      ensures Valid() && State() == Aborted(old(State()))
      ensures loading && pending.None? && messages == old(messages)
    {
      pending := None;
    }

    /** The answer box's `onChange`. */
    method EditInput(text: string)
      requires Valid()
      modifies this
      ensures Valid() && State() == Edited(old(State()), text)
      ensures FormShown(old(State())) && InputEnabled(old(State())) ==> userInput == text
    {
      if messages != [] && !loading && feedback.None? {
        userInput := text;
      }
    }
  }
}
