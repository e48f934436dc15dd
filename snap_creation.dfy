// The snap-creation wizard of src/hooks/useSnapCreation.ts: a story, the
// questions generated from it and the user's answers, then the generation
// of the snap on the server, whose status is polled until it completes,
// fails or the attempts run out.
module SnapCreation {
  import opened JsText

  datatype SnapStep = StoryStep | QuestionsStep | Generating | Completed

  /** The most status requests one poll makes (five minutes at five seconds apart). */
  const MaxAttempts: nat := 60

  /** The status field of a status response; any other string is `Unknown`. */
  datatype StatusKind = StatusCompleted | StatusFailed | StatusProcessing | StatusPending | StatusUnknown

  /** One status request: the server's answer, or a request that threw. */
  datatype PollResponse =
    | Status(status: StatusKind, progress: Option<int>, error: Option<string>)
    | RequestThrew

  /** The cells a poll writes. */
  datatype PollView = PollView(step: SnapStep, progress: int, error: Option<string>)

  /** What one answer that does not stop polling does to the view. */
  function ProgressOf(v: PollView, r: PollResponse): (w: PollView)
    ensures w.step == v.step && w.error == v.error
    ensures r.Status? && r.progress.Some? ==> w.progress == r.progress.value
    ensures !(r.Status? && r.progress.Some?) ==> w.progress == v.progress
  {
    if r.Status? && r.progress.Some? then v.(progress := r.progress.value) else v
  }

  /** Whether a response asks for another try (still pending or processing,
      or a request that threw). */
  predicate Retries(r: PollResponse)
  {
    r.RequestThrew? || r.status == StatusProcessing || r.status == StatusPending
  }

  /** The poll of `pollSnapStatus`, as a function of the responses the server
      gives, starting after `attempts` tries: the final view and the number of
      responses consumed. When the responses run out before the poll stops,
      the view reached so far is returned. */
  function Poll(v: PollView, responses: seq<PollResponse>, attempts: nat): (PollView, nat)
    requires attempts < MaxAttempts
    decreases |responses|
  {
    if responses == [] then (v, 0)
    else
      var r := responses[0];
      var w := ProgressOf(v, r);
      if Retries(r) then
        if attempts + 1 < MaxAttempts then
          var (u, n) := Poll(w, responses[1..], attempts + 1);
          (u, n + 1)
        else if r.RequestThrew? then (w.(error := Some("Failed to check snap status")), 1)
        else (w.(error := Some("Snap generation timed out")), 1)
      else if r.status == StatusCompleted then (w.(step := Completed, progress := 100), 1)
      else if r.status == StatusFailed then
        (w.(error := Some(if r.error.Some? && r.error.value != "" then r.error.value else "Snap generation failed")), 1)
      else (w, 1)
  }

  /** A poll never makes more requests than the attempts left, and never more
      than it was given answers for. */
  lemma {:induction false} PollIsBounded(v: PollView, responses: seq<PollResponse>, attempts: nat)
    requires attempts < MaxAttempts
    ensures Poll(v, responses, attempts).1 <= MaxAttempts - attempts
    ensures Poll(v, responses, attempts).1 <= |responses|
    decreases |responses|
  {
    if responses != [] && Retries(responses[0]) && attempts + 1 < MaxAttempts {
      PollIsBounded(ProgressOf(v, responses[0]), responses[1..], attempts + 1);
    }
  }

  /** A `completed` status as the first answer finishes the snap at 100 %. */
  lemma CompletedStopsPoll(v: PollView, responses: seq<PollResponse>, attempts: nat)
    requires attempts < MaxAttempts
    requires |responses| >= 1 && responses[0].Status? && responses[0].status == StatusCompleted
    ensures Poll(v, responses, attempts) == (PollView(Completed, 100, v.error), 1)
  {
  }

  /** A `failed` status as the first answer stops the poll with the server's
      message, or the default one when it has none. */
  lemma FailedStopsPoll(v: PollView, responses: seq<PollResponse>, attempts: nat)
    requires attempts < MaxAttempts
    requires |responses| >= 1 && responses[0].Status? && responses[0].status == StatusFailed
    ensures Poll(v, responses, attempts).1 == 1 && Poll(v, responses, attempts).0.step == v.step
    ensures Poll(v, responses, attempts).0.error ==
      Some(if responses[0].error.Some? && responses[0].error.value != "" then responses[0].error.value
           else "Snap generation failed")
  {
  }

  /** A server that keeps answering `pending` or `processing` is asked exactly
      the attempts that are left, and the poll then reports a time-out
      without changing the step. */
  lemma {:induction false} PendingTimesOut(v: PollView, responses: seq<PollResponse>, attempts: nat)
    requires attempts < MaxAttempts
    requires |responses| >= MaxAttempts - attempts
    requires forall k :: 0 <= k < MaxAttempts - attempts ==>
      responses[k].Status? && (responses[k].status == StatusPending || responses[k].status == StatusProcessing)
    ensures Poll(v, responses, attempts).1 == MaxAttempts - attempts
    ensures Poll(v, responses, attempts).0.error == Some("Snap generation timed out")
    ensures Poll(v, responses, attempts).0.step == v.step
    decreases MaxAttempts - attempts
  {
    if attempts + 1 < MaxAttempts {
      var rest := responses[1..];
      assert forall k :: 0 <= k < MaxAttempts - (attempts + 1) ==> rest[k] == responses[k + 1];
      PendingTimesOut(ProgressOf(v, responses[0]), rest, attempts + 1);
    }
  }

  /** One slot of the answers array. A `Hole` is an index that was never
      written (an array grown by writing past its end); spreading the array
      into a copy reads a hole as `Undefined`, which is then a real entry. */
  datatype Entry = Hole | Undefined | Written(text: string)

  /** What `[...prev]` makes of one slot. */
  function Spread(e: Entry): (r: Entry)
    ensures r != Hole
    ensures e != Hole ==> r == e
  {
    if e.Hole? then Undefined else e
  }

  /** `[...prev]` followed by `newAnswers[index] = answer`. An index past the
      end grows the copy, leaving holes between; a negative index sets a
      property, not an element. */
  function WithAnswer(prev: seq<Entry>, index: int, answer: string): (r: seq<Entry>)
    ensures |r| == if index >= |prev| then index + 1 else |prev|
    ensures index >= 0 ==> r[index] == Written(answer)
    ensures forall k :: 0 <= k < |r| && k != index ==>
      r[k] == if k < |prev| then Spread(prev[k]) else Hole
  {
    var copy := seq(|prev|, k requires 0 <= k < |prev| => Spread(prev[k]));
    if index < 0 then copy
    else if index < |prev| then copy[index := Written(answer)]
    else copy + seq(index - |prev|, _ => Hole) + [Written(answer)]
  }

  /** A slot `some` gets past: a hole, which it skips, or an answer that is
      not blank after trimming. */
  predicate Passes(e: Entry)
  {
    e.Hole? || (e.Written? && !AllWhitespace(e.text))
  }

  /** Every slot before `k` passes. */
  predicate PassesBefore(answers: seq<Entry>, k: int)
    requires 0 <= k <= |answers|
  {
    forall j :: 0 <= j < k ==> Passes(answers[j])
  }

  /** Some blank answer has only passing slots before it. */
  predicate BlankFirst(answers: seq<Entry>)
  {
    exists k :: 0 <= k < |answers| && answers[k].Written? && AllWhitespace(answers[k].text) && PassesBefore(answers, k)
  }

  /** Some undefined entry has only passing slots before it. */
  predicate UndefinedFirst(answers: seq<Entry>)
  {
    exists k :: 0 <= k < |answers| && answers[k].Undefined? && PassesBefore(answers, k)
  }

  /** How `answers.some(a => !a.trim())` ends: false, true at a blank answer,
      or a TypeError at an undefined entry, whichever comes first. */
  datatype Scan = NoBlank | Blank | Throws

  function ScanAnswers(answers: seq<Entry>): (r: Scan)
    ensures r == NoBlank <==> PassesBefore(answers, |answers|)
    ensures r == Blank <==> BlankFirst(answers)
    ensures r == Throws <==> UndefinedFirst(answers)
  {
    if answers == [] then NoBlank
    else
      match answers[0]
      case Undefined =>
        assert PassesBefore(answers, 0);
        Throws
      case Written(a) =>
        TrimEmptyIff(a);
        if Trim(a) == "" then
          assert PassesBefore(answers, 0);
          Blank
        else
          PassedFirst(answers);
          ScanAnswers(answers[1..])
      case Hole =>
        PassedFirst(answers);
        ScanAnswers(answers[1..])
  }

  /** Past a first slot that passes, each outcome of the scan is decided by
      the rest of the array. */
  lemma PassedFirst(answers: seq<Entry>)
    requires answers != [] && Passes(answers[0])
    ensures PassesBefore(answers[1..], |answers| - 1) <==> PassesBefore(answers, |answers|)
    ensures BlankFirst(answers[1..]) <==> BlankFirst(answers)
    ensures UndefinedFirst(answers[1..]) <==> UndefinedFirst(answers)
  {
    var tail := answers[1..];
    forall k | 0 <= k <= |tail|
      ensures PassesBefore(tail, k) <==> PassesBefore(answers, k + 1)
    {
      assert forall j :: 0 <= j < k ==> tail[j] == answers[j + 1];
      if PassesBefore(tail, k) {
        forall j | 0 <= j < k + 1
          ensures Passes(answers[j])
        {
          if j > 0 { assert answers[j] == tail[j - 1]; }
        }
      }
    }
    if BlankFirst(answers) {
      var k :| 0 <= k < |answers| && answers[k].Written? && AllWhitespace(answers[k].text) && PassesBefore(answers, k);
      assert k != 0;
      assert tail[k - 1] == answers[k];
    }
    if BlankFirst(tail) {
      var k :| 0 <= k < |tail| && tail[k].Written? && AllWhitespace(tail[k].text) && PassesBefore(tail, k);
      assert answers[k + 1] == tail[k];
    }
    if UndefinedFirst(answers) {
      var k :| 0 <= k < |answers| && answers[k].Undefined? && PassesBefore(answers, k);
      assert k != 0;
      assert tail[k - 1] == answers[k];
    }
    if UndefinedFirst(tail) {
      var k :| 0 <= k < |tail| && tail[k].Undefined? && PassesBefore(tail, k);
      assert answers[k + 1] == tail[k];
    }
  }

  /** Editing answers in place, from the array `generateQuestions` fills,
      never makes a hole or an undefined entry. */
  lemma InRangeKeepsEntries(prev: seq<Entry>, index: int, answer: string)
    requires forall k :: 0 <= k < |prev| ==> prev[k].Written?
    requires index <= |prev|
    ensures forall k :: 0 <= k < |WithAnswer(prev, index, answer)| ==> WithAnswer(prev, index, answer)[k].Written?
  {
  }

  /** Writing two or more past the end leaves a hole; once any other answer
      is then edited, the copy turns that hole into an undefined entry, and
      the guard of `createSnap` throws on it unless a blank answer comes first. */
  lemma {:induction false} SkippedSlotThrows(prev: seq<Entry>, index: int, answer: string, j: int, edit: string)
    requires forall k :: 0 <= k < |prev| ==> prev[k].Written? && !AllWhitespace(prev[k].text)
    requires index > |prev| && !AllWhitespace(answer)
    requires 0 <= j < |prev| && !AllWhitespace(edit)
    ensures WithAnswer(WithAnswer(prev, index, answer), j, edit)[|prev|] == Undefined
    ensures ScanAnswers(WithAnswer(WithAnswer(prev, index, answer), j, edit)) == Throws
  {
    var a := WithAnswer(prev, index, answer);
    var b := WithAnswer(a, j, edit);
    assert a[|prev|] == Hole;
    assert b[|prev|] == Undefined;
    forall i | 0 <= i < |prev|
      ensures Passes(b[i])
    {
      if i != j {
        assert a[i] == prev[i];
      }
    }
    assert PassesBefore(b, |prev|);
  }

  /** The answer of `generatePodcastQuestions`: the questions, or a thrown error. */
  datatype QuestionsOutcome = QuestionsGenerated(questions: seq<string>) | QuestionsFailed(message: Option<string>)

  /** The answer of `generatePodcastSnap` and `generatePodcast`: the new snap's
      id, or a thrown error. */
  datatype GenerateOutcome = GenerationStarted(snapId: int) | GenerationFailed(message: Option<string>)

  function MessageOr(message: Option<string>, fallback: string): (m: string)
    ensures message.Some? ==> m == message.value
    ensures message.None? ==> m == fallback
  {
    if message.Some? then message.value else fallback
  }

  const IncompleteMessage := "Please complete all questions and answers"

  class SnapCreationFlow {
    var currentStep: SnapStep
    var story: string
    var questions: seq<string>
    var answers: seq<Entry>
    var generatedSnapId: Option<int>
    var isLoading: bool
    var error: Option<string>
    var progress: int

    function View(): PollView
      reads this
    {
      PollView(currentStep, progress, error)
    }

    constructor ()
      ensures currentStep == StoryStep && story == "" && questions == [] && answers == []
      ensures generatedSnapId == None && !isLoading && error == None && progress == 0
    {
      currentStep := StoryStep;
      story := "";
      questions := [];
      answers := [];
      generatedSnapId := None;
      isLoading := false;
      error := None;
      progress := 0;
    }

    /** Asks for the questions of a story. On success there is one empty
        answer per question, the story is kept and the questions step shows. */
    method GenerateQuestions(storyText: string, outcome: QuestionsOutcome) returns (generated: seq<string>)
      modifies this`questions, this`answers, this`story, this`currentStep, this`error, this`isLoading
      ensures !isLoading
      ensures outcome.QuestionsGenerated? ==>
        generated == outcome.questions && questions == generated && story == storyText &&
        currentStep == QuestionsStep && error == None &&
        |answers| == |questions| && forall k :: 0 <= k < |answers| ==> answers[k] == Written("")
      ensures outcome.QuestionsFailed? ==>
        generated == [] && error == Some(MessageOr(outcome.message, "Failed to generate questions")) &&
        questions == old(questions) && answers == old(answers) && story == old(story) && currentStep == old(currentStep)
    {
      isLoading := true;
      error := None;
      match outcome {
        case QuestionsGenerated(qs) =>
          questions := qs;
          answers := seq(|qs|, _ => Written(""));
          story := storyText;
          currentStep := QuestionsStep;
          generated := qs;
        case QuestionsFailed(message) =>
          error := Some(MessageOr(message, "Failed to generate questions"));
          generated := [];
      }
      isLoading := false;
    }

    /** Writes one answer into a copy of the array. */
    method UpdateAnswer(index: int, answer: string)
      modifies this`answers
      ensures answers == WithAnswer(old(answers), index, answer)
    {
      answers := WithAnswer(answers, index, answer);
    }

    method SetStory(s: string)
      modifies this`story
      ensures story == s
    {
      story := s;
    }

    /** Runs the status poll of `pollSnapStatus` over the answers the server
        gives, one request per answer, and returns how many were made. */
    method PollSnapStatus(responses: seq<PollResponse>) returns (requests: nat)
      modifies this`currentStep, this`progress, this`error
      ensures (View(), requests) == Poll(old(View()), responses, 0)
      ensures requests <= MaxAttempts
    {
      PollIsBounded(View(), responses, 0);
      ghost var start := View();
      var attempts: nat := 0;
      var i := 0;
      var done := false;
      while !done && i < |responses|
        invariant 0 <= i <= |responses|
        invariant !done ==> attempts == i && attempts < MaxAttempts
        invariant !done ==> Poll(start, responses, 0) == (var (u, n) := Poll(View(), responses[i..], attempts); (u, n + i))
        invariant done ==> Poll(start, responses, 0) == (View(), i)
        decreases |responses| - i, if done then 0 else 1
      {
        var r := responses[i];
        assert responses[i..][1..] == responses[i + 1..];
        i := i + 1;
        if r.Status? && r.progress.Some? {
          progress := r.progress.value;
        }
        if Retries(r) {
          attempts := attempts + 1;
          if attempts >= MaxAttempts {
            error := Some(if r.RequestThrew? then "Failed to check snap status" else "Snap generation timed out");
            done := true;
          }
        } else {
          if r.status == StatusCompleted {
            currentStep := Completed;
            progress := 100;
          } else if r.status == StatusFailed {
            error := Some(if r.error.Some? && r.error.value != "" then r.error.value else "Snap generation failed");
          }
          done := true;
        }
      }
      if !done {
        assert responses[i..] == [];
      }
      requests := i;
    }

    /** Starts generating a snap and polls its status. Nothing is sent, and
        only the error changes, unless there is a story, there are questions
        and no answer is blank. An undefined entry met by the guard's scan
        before any blank answer throws a TypeError: the call rejects with no
        state changed. */
    method CreateSnap(outcome: GenerateOutcome, responses: seq<PollResponse>) returns (threw: bool, snapId: Option<int>)
      modifies this`currentStep, this`progress, this`error, this`isLoading, this`generatedSnapId
      ensures threw <==> story != "" && questions != [] && ScanAnswers(answers) == Throws
      ensures threw ==>
        snapId == None && View() == old(View()) &&
        isLoading == old(isLoading) && generatedSnapId == old(generatedSnapId)
      ensures story == "" || questions == [] || ScanAnswers(answers) == Blank ==>
        snapId == None && error == Some(IncompleteMessage) &&
        currentStep == old(currentStep) && progress == old(progress) &&
        isLoading == old(isLoading) && generatedSnapId == old(generatedSnapId)
      ensures story != "" && questions != [] && ScanAnswers(answers) == NoBlank ==>
        Started(old(generatedSnapId), outcome, responses, "Failed to create snap", snapId)
    {
      threw := false;
      if story == "" || questions == [] {
        error := Some(IncompleteMessage);
        return false, None;
      }
      var scan := ScanAnswers(answers);
      if scan == Throws {
        return true, None;
      } else if scan == Blank {
        error := Some(IncompleteMessage);
        return false, None;
      }
      snapId := Submit(outcome, responses, "Failed to create snap");
    }

    /** Starts generating a podcast from a title and polls its status. */
    method GeneratePodcast(outcome: GenerateOutcome, responses: seq<PollResponse>) returns (snapId: Option<int>)
      modifies this`currentStep, this`progress, this`error, this`isLoading, this`generatedSnapId
      ensures Started(old(generatedSnapId), outcome, responses, "Failed to generate podcast", snapId)
    {
      snapId := Submit(outcome, responses, "Failed to generate podcast");
    }

    /** The state after a generation request: the generating step at 0 %, then
        on success the snap's id recorded and returned and the poll's effects,
        and on failure the thrown message (or the fallback); loading is over. */
    ghost predicate Started(oldSnapId: Option<int>, outcome: GenerateOutcome, responses: seq<PollResponse>,
                            fallback: string, snapId: Option<int>)
      reads this
    {
      !isLoading &&
      (outcome.GenerationStarted? ==>
        snapId == Some(outcome.snapId) && generatedSnapId == snapId &&
        View() == Poll(PollView(Generating, 0, None), responses, 0).0) &&
      (outcome.GenerationFailed? ==>
        snapId == None && generatedSnapId == oldSnapId &&
        View() == PollView(Generating, 0, Some(MessageOr(outcome.message, fallback))))
    }

    method Submit(outcome: GenerateOutcome, responses: seq<PollResponse>, fallback: string) returns (snapId: Option<int>)
      modifies this`currentStep, this`progress, this`error, this`isLoading, this`generatedSnapId
      ensures Started(old(generatedSnapId), outcome, responses, fallback, snapId)
    {
      isLoading := true;
      error := None;
      currentStep := Generating;
      progress := 0;
      match outcome {
        case GenerationStarted(id) =>
          generatedSnapId := Some(id);
          var _ := PollSnapStatus(responses);
          snapId := Some(id);
        case GenerationFailed(message) =>
          error := Some(MessageOr(message, fallback));
          snapId := None;
      }
      isLoading := false;
    }

    method Reset()
      modifies this`currentStep, this`story, this`questions, this`answers, this`generatedSnapId, this`error, this`progress
      ensures currentStep == StoryStep && story == "" && questions == [] && answers == []
      ensures generatedSnapId == None && error == None && progress == 0
      ensures isLoading == old(isLoading)
    {
      currentStep := StoryStep;
      story := "";
      questions := [];
      answers := [];
      generatedSnapId := None;
      error := None;
      progress := 0;
    }

    method GoToStep(step: SnapStep)
      modifies this`currentStep
      ensures currentStep == step
    {
      currentStep := step;
    }
  }
}
