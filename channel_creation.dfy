// The channel-creation wizard of src/hooks/useChannelCreation.ts: steps name,
// image, concept and completed over one record of three strings. A step
// advances only when its validator accepts the record; a validator that
// rejects writes its message into the error cell.
module ChannelCreation {
  import opened JsText

  datatype CreationStep = NameStep | ImageStep | ConceptStep | Completed

  datatype ChannelForm = ChannelForm(name: string, avatar: string, instruction: string)

  /** The channel the backend returns; the model keeps its id and the fields sent. */
  datatype Channel = Channel(id: int, name: string, avatar: string, instruction: string)

  /** `validateName`: the trimmed name needs between 3 and 50 characters. */
  function NameError(f: ChannelForm): (r: Option<string>)
  {
    if Trim(f.name) == "" then Some("Channel name is required")
    else if |Trim(f.name)| < 3 then Some("Channel name must be at least 3 characters")
    else if |Trim(f.name)| > 50 then Some("Channel name must be less than 50 characters")
    else None
  }

  /** The name is accepted exactly when its trimmed length lies in [3, 50]; a
      blank name gets the "required" message and never the length ones. */
  lemma NameErrorIff(f: ChannelForm)
    ensures NameError(f) == None <==> 3 <= |Trim(f.name)| <= 50
    ensures NameError(f) == Some("Channel name is required") <==> AllWhitespace(f.name)
  {
    TrimEmptyIff(f.name);
  }

  /** `validateImage`: an image must have been uploaded. */
  function ImageError(f: ChannelForm): (r: Option<string>)
    ensures r == None <==> f.avatar != ""
  {
    if f.avatar == "" then Some("Please upload a channel image") else None
  }

  /** `validateConcept`: the trimmed instruction needs between 10 and 500 characters. */
  function ConceptError(f: ChannelForm): (r: Option<string>)
  {
    if Trim(f.instruction) == "" then Some("AI DJ concept is required")
    else if |Trim(f.instruction)| < 10 then Some("AI DJ concept must be at least 10 characters")
    else if |Trim(f.instruction)| > 500 then Some("AI DJ concept must be less than 500 characters")
    else None
  }

  lemma ConceptErrorIff(f: ChannelForm)
    ensures ConceptError(f) == None <==> 10 <= |Trim(f.instruction)| <= 500
    ensures ConceptError(f) == Some("AI DJ concept is required") <==> AllWhitespace(f.instruction)
  {
    TrimEmptyIff(f.instruction);
  }

  /** The validator that guards leaving a step; `completed` has none. */
  function StepError(step: CreationStep, f: ChannelForm): Option<string>
    requires step != Completed
  {
    match step
    case NameStep => NameError(f)
    case ImageStep => ImageError(f)
    case ConceptStep => ConceptError(f)
  }

  /** The message of the first validator, in step order, that rejects the form. */
  function FirstError(f: ChannelForm): Option<string>
  {
    if NameError(f).Some? then NameError(f)
    else if ImageError(f).Some? then ImageError(f)
    else ConceptError(f)
  }

  predicate FormValid(f: ChannelForm)
  {
    FirstError(f) == None
  }

  /** The form passes all three validators exactly when the trimmed name,
      the image and the trimmed concept are all within their bounds. */
  lemma FormValidIff(f: ChannelForm)
    ensures FormValid(f) <==>
      3 <= |Trim(f.name)| <= 50 && f.avatar != "" && 10 <= |Trim(f.instruction)| <= 500
  {
    NameErrorIff(f);
    ConceptErrorIff(f);
  }

  function Successor(step: CreationStep): CreationStep
    requires step != Completed
  {
    match step
    case NameStep => ImageStep
    case ImageStep => ConceptStep
    case ConceptStep => Completed
  }

  function Predecessor(step: CreationStep): CreationStep
  {
    match step
    case NameStep => NameStep
    case ImageStep => NameStep
    case ConceptStep => ImageStep
    case Completed => ConceptStep
  }

  /** Going back undoes going forward, and going forward undoes going back
      from every step but the first. */
  lemma StepsAreLinear(step: CreationStep)
    ensures step != Completed ==> Predecessor(Successor(step)) == step
    ensures step != NameStep ==> Successor(Predecessor(step)) == step
  {
  }

  /** One field and its new value, as passed to `updateData`. */
  datatype FieldUpdate = SetName(name: string) | SetAvatar(avatar: string) | SetInstruction(instruction: string)

  function Updated(f: ChannelForm, u: FieldUpdate): (r: ChannelForm)
    ensures u.SetName? ==> r == f.(name := u.name)
    ensures u.SetAvatar? ==> r == f.(avatar := u.avatar)
    ensures u.SetInstruction? ==> r == f.(instruction := u.instruction)
  {
    match u
    case SetName(v) => f.(name := v)
    case SetAvatar(v) => f.(avatar := v)
    case SetInstruction(v) => f.(instruction := v)
  }

  /** What `completeChannelCreation` sends to the backend. */
  datatype CreateRequest = CreateRequest(name: string, avatar: string, instruction: string)

  /** The request built from the form: name and concept are sent trimmed. */
  function RequestOf(f: ChannelForm): CreateRequest
  {
    CreateRequest(Trim(f.name), f.avatar, Trim(f.instruction))
  }

  /** A request built from an accepted form carries a name and a concept
      within the validators' bounds, each an inner slice of what was typed
      with no white space at either end. */
  lemma RequestOfValidForm(f: ChannelForm)
    requires FormValid(f)
    ensures 3 <= |RequestOf(f).name| <= 50 && 10 <= |RequestOf(f).instruction| <= 500
    ensures RequestOf(f).avatar == f.avatar && f.avatar != ""
    ensures !IsWhitespace(RequestOf(f).name[0]) && !IsWhitespace(RequestOf(f).name[|RequestOf(f).name| - 1])
    ensures !IsWhitespace(RequestOf(f).instruction[0])
    ensures !IsWhitespace(RequestOf(f).instruction[|RequestOf(f).instruction| - 1])
    ensures |RequestOf(f).name| <= |f.name| && |RequestOf(f).instruction| <= |f.instruction|
  {
    FormValidIff(f);
    TrimIsInnerSlice(f.name);
    TrimIsInnerSlice(f.instruction);
    TrimHasNoOuterSpace(f.name);
    TrimHasNoOuterSpace(f.instruction);
  }

  /** The backend's answer: a channel, no channel, or a thrown error (with its
      message when it was an Error). */
  datatype CreateOutcome = Created(channel: Channel) | NoChannel | CreateFailed(message: Option<string>)

  /** The message a creation that returned no channel leaves. */
  function FailureMessage(outcome: CreateOutcome): (m: string)
    requires !outcome.Created?
    ensures outcome.NoChannel? ==> m == "Failed to create channel"
    ensures outcome.CreateFailed? && outcome.message.Some? ==> m == outcome.message.value
    ensures outcome.CreateFailed? && outcome.message.None? ==> m == "Channel creation failed"
  {
    match outcome
    case NoChannel => "Failed to create channel"
    case CreateFailed(message) => if message.Some? then message.value else "Channel creation failed"
  }

  function EmptyForm(): ChannelForm
  {
    ChannelForm("", "", "")
  }

  class ChannelCreationFlow {
    var currentStep: CreationStep
    var channelData: ChannelForm
    var createdChannel: Option<Channel>
    var isLoading: bool
    var error: Option<string>

    constructor ()
      ensures currentStep == NameStep && channelData == EmptyForm()
      ensures createdChannel == None && !isLoading && error == None
    {
      currentStep := NameStep;
      channelData := EmptyForm();
      createdChannel := None;
      isLoading := false;
      error := None;
    }

    method UpdateData(u: FieldUpdate)
      modifies this`channelData, this`error
      ensures channelData == Updated(old(channelData), u) && error == None
    {
      channelData := Updated(channelData, u);
      error := None;
    }

    /** Runs the validator of `step`; a rejection writes its message. */
    method Validate(step: CreationStep) returns (ok: bool)
      requires step != Completed
      modifies this`error
      ensures ok <==> StepError(step, channelData) == None
      ensures ok ==> error == old(error)
      ensures !ok ==> error == StepError(step, channelData)
    {
      var e := StepError(step, channelData);
      if e.Some? {
        error := e;
        return false;
      }
      return true;
    }

    /** `validateName() && validateImage() && validateConcept()`, which stops
        at the first rejection and leaves its message. */
    method ValidateAll() returns (ok: bool)
      modifies this`error
      ensures ok <==> FormValid(channelData)
      ensures ok ==> error == old(error)
      ensures !ok ==> error == FirstError(channelData)
    {
      ok := Validate(NameStep);
      if ok { ok := Validate(ImageStep); }
      if ok { ok := Validate(ConceptStep); }
    }

    method GoToStep(step: CreationStep)
      modifies this`currentStep, this`error
      ensures currentStep == step && error == None
    {
      currentStep := step;
      error := None;
    }

    /** Advances one step when the current step's validator accepts the form;
        at `completed` nothing matches and the answer is false. */
    method NextStep() returns (isValid: bool)
      modifies this`currentStep, this`error
      ensures old(currentStep) == Completed ==> !isValid && currentStep == Completed && error == old(error)
      ensures old(currentStep) != Completed ==> (isValid <==> StepError(old(currentStep), channelData) == None)
      ensures isValid ==> currentStep == Successor(old(currentStep)) && error == old(error)
      ensures !isValid && old(currentStep) != Completed ==>
        currentStep == old(currentStep) && error == StepError(old(currentStep), channelData)
    {
      isValid := false;
      if currentStep != Completed {
        isValid := Validate(currentStep);
        if isValid {
          currentStep := Successor(currentStep);
        }
      }
    }

    method PreviousStep()
      modifies this`currentStep, this`error
      ensures currentStep == Predecessor(old(currentStep)) && error == None
    {
      currentStep := Predecessor(currentStep);
      error := None;
    }

    /** The part of `completeChannelCreation` after validation: the outcome
        of the request is recorded, with the loading flag down afterwards. */
    method Submit(outcome: CreateOutcome) returns (result: Option<Channel>)
      modifies this`currentStep, this`createdChannel, this`isLoading, this`error
      ensures !isLoading
      ensures result.Some? <==> outcome.Created?
      ensures outcome.Created? ==>
        result == Some(outcome.channel) && createdChannel == result && currentStep == Completed && error == None
      ensures !outcome.Created? ==>
        currentStep == old(currentStep) && createdChannel == old(createdChannel) &&
        error == Some(FailureMessage(outcome))
    {
      isLoading := true;
      error := None;
      if outcome.Created? {
        createdChannel := Some(outcome.channel);
        currentStep := Completed;
        result := Some(outcome.channel);
      } else {
        error := Some(FailureMessage(outcome));
        result := None;
      }
      isLoading := false;
    }

    /** Validates the whole form in step order and, when it is accepted,
        submits it with the name and concept trimmed. The request sent, if
        any, is returned beside the channel. */
    method CompleteChannelCreation(outcome: CreateOutcome) returns (result: Option<Channel>, sent: Option<CreateRequest>)
      modifies this`currentStep, this`createdChannel, this`isLoading, this`error
      ensures sent.Some? <==> FormValid(channelData)
      ensures sent.Some? ==> sent.value == RequestOf(channelData)
      ensures result.Some? <==> sent.Some? && outcome.Created?
      ensures result.Some? ==>
        result == Some(outcome.channel) && createdChannel == result && currentStep == Completed && error == None
      ensures result.None? ==> currentStep == old(currentStep) && createdChannel == old(createdChannel)
      ensures sent.None? ==> error == FirstError(channelData) && isLoading == old(isLoading)
      ensures sent.Some? ==> !isLoading
      ensures sent.Some? && result.None? ==> error == Some(FailureMessage(outcome))
    {
      var valid := ValidateAll();
      if !valid {
        return None, None;
      }
      sent := Some(RequestOf(channelData));
      result := Submit(outcome);
    }

    method Reset()
      modifies this
      ensures currentStep == NameStep && channelData == EmptyForm()
      ensures createdChannel == None && error == None && !isLoading
    {
      currentStep := NameStep;
      channelData := EmptyForm();
      createdChannel := None;
      error := None;
      isLoading := false;
    }
  }
}
