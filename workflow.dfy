// The workflow navigation state of src/hooks/useWorkflow.ts: the current
// step, a back-stack of steps, the overlay flags, the search query and the
// current selections. Every callback of the hook hands one `prev => next`
// function to the state setter; each is a function here.
module Workflow {
  import opened JsText

  datatype WorkflowStep =
    | Home | Login | Register | Name | Gender | Avatar | Search | Channel
    | ChannelCreationName | ChannelCreationImage | ChannelCreationConcept
    | SnapCreationStory | SnapCreationQuestions

  /** A channel or a snap selected in the UI; the model keeps its id and title. */
  datatype ChannelData = ChannelData(id: int, name: string)
  datatype SnapData = SnapData(id: int, title: string)

  datatype WorkflowState = WorkflowState(
    currentStep: WorkflowStep,
    previousStep: Option<WorkflowStep>,
    navigationStack: seq<WorkflowStep>,
    isProfileOverlayOpen: bool,
    isAudioTrackbarOpen: bool,
    searchQuery: string,
    selectedChannel: Option<ChannelData>,
    selectedSnap: Option<SnapData>)

  /** The stack always holds at least one step. */
  predicate NonEmptyStack(s: WorkflowState)
  {
    |s.navigationStack| >= 1
  }

  /** The current step is the top of the stack. */
  predicate OnTop(s: WorkflowState)
  {
    NonEmptyStack(s) && s.currentStep == s.navigationStack[|s.navigationStack| - 1]
  }

  /** The two states agree on everything but the step fields and the stack. */
  predicate SameExtras(a: WorkflowState, b: WorkflowState)
  {
    a.isProfileOverlayOpen == b.isProfileOverlayOpen && a.isAudioTrackbarOpen == b.isAudioTrackbarOpen &&
    a.searchQuery == b.searchQuery && a.selectedChannel == b.selectedChannel && a.selectedSnap == b.selectedSnap
  }

  /** The state the hook starts in, which `resetWorkflow` restores. */
  function Initial(): (r: WorkflowState)
    ensures OnTop(r) && r.navigationStack == [Home] && r.currentStep == Home && r.previousStep == None
    ensures !r.isProfileOverlayOpen && !r.isAudioTrackbarOpen && r.searchQuery == ""
    ensures r.selectedChannel == None && r.selectedSnap == None
  {
    WorkflowState(Home, None, [Home], false, false, "", None, None)
  }

  function NavigateTo(s: WorkflowState, step: WorkflowStep, addToStack: bool): (r: WorkflowState)
    ensures r.previousStep == Some(s.currentStep) && r.currentStep == step
    ensures r.navigationStack == if addToStack then s.navigationStack + [step] else s.navigationStack
    ensures SameExtras(r, s)
    ensures NonEmptyStack(s) ==> NonEmptyStack(r)
    ensures addToStack ==> OnTop(r)
  {
    s.(previousStep := Some(s.currentStep), currentStep := step,
       navigationStack := if addToStack then s.navigationStack + [step] else s.navigationStack)
  }

  /** Pops the stack and returns to the step below; with one entry or none
      left, nothing changes. */
  function GoBack(s: WorkflowState): (r: WorkflowState)
    ensures |s.navigationStack| <= 1 ==> r == s
    ensures |s.navigationStack| > 1 ==>
      r.navigationStack == s.navigationStack[..|s.navigationStack| - 1] &&
      r.previousStep == Some(s.currentStep) && OnTop(r) && SameExtras(r, s)
    ensures NonEmptyStack(s) ==> NonEmptyStack(r)
  {
    if |s.navigationStack| <= 1 then s
    else
      var newStack := s.navigationStack[..|s.navigationStack| - 1];
      s.(previousStep := Some(s.currentStep), currentStep := newStack[|newStack| - 1], navigationStack := newStack)
  }

  function NavigateToHome(s: WorkflowState): (r: WorkflowState)
    ensures r.navigationStack == [Home] && r.currentStep == Home && r.previousStep == Some(s.currentStep)
    ensures OnTop(r) && SameExtras(r, s)
  {
    s.(previousStep := Some(s.currentStep), currentStep := Home, navigationStack := [Home])
  }

  /** Opens the profile overlay for a signed-in user, and goes to the login
      step otherwise. */
  function HandleProfileClick(s: WorkflowState, isAuthenticated: bool): (r: WorkflowState)
    ensures isAuthenticated ==> r == s.(isProfileOverlayOpen := true)
    ensures !isAuthenticated ==>
      r.currentStep == Login && r.previousStep == Some(s.currentStep) &&
      r.navigationStack == s.navigationStack + [Login] && SameExtras(r, s)
  {
    if !isAuthenticated then NavigateTo(s, Login, true)
    else s.(isProfileOverlayOpen := true)
  }

  /** Closes the profile overlay; nothing else changes. */
  function CloseProfileOverlay(s: WorkflowState): (r: WorkflowState)
    ensures !r.isProfileOverlayOpen
    ensures r.(isProfileOverlayOpen := s.isProfileOverlayOpen) == s
  {
    s.(isProfileOverlayOpen := false)
  }

  /** Closes the overlay and shows the user's own channel, or starts creating
      one when the user has none. */
  function HandleMyChannelClick(s: WorkflowState, myChannel: Option<ChannelData>): (r: WorkflowState)
    ensures !r.isProfileOverlayOpen && OnTop(r)
    ensures r.previousStep == Some(s.currentStep) && r.navigationStack == s.navigationStack + [r.currentStep]
    ensures r.isAudioTrackbarOpen == s.isAudioTrackbarOpen && r.searchQuery == s.searchQuery
    ensures r.selectedSnap == s.selectedSnap
    ensures myChannel.Some? ==> r.currentStep == Channel && r.selectedChannel == myChannel
    ensures myChannel.None? ==> r.currentStep == ChannelCreationName && r.selectedChannel == s.selectedChannel
  {
    match myChannel
    case Some(c) => NavigateTo(s.(selectedChannel := Some(c), isProfileOverlayOpen := false), Channel, true)
    case None => NavigateTo(s.(isProfileOverlayOpen := false), ChannelCreationName, true)
  }

  function HandleChannelClick(s: WorkflowState, c: ChannelData): (r: WorkflowState)
    ensures r.selectedChannel == Some(c) && r.currentStep == Channel && OnTop(r)
    ensures r.previousStep == Some(s.currentStep) && r.navigationStack == s.navigationStack + [Channel]
    ensures SameExtras(r, s.(selectedChannel := Some(c)))
  {
    NavigateTo(s.(selectedChannel := Some(c)), Channel, true)
  }

  /** Selects a snap; playing it is left to the audio context. */
  function HandleSnapClick(s: WorkflowState, snap: SnapData): (r: WorkflowState)
    ensures r.selectedSnap == Some(snap)
    ensures r.(selectedSnap := s.selectedSnap) == s
  {
    s.(selectedSnap := Some(snap))
  }

  /** Records the query; a query that is not blank also opens the search step. */
  function HandleSearchQuery(s: WorkflowState, query: string): (r: WorkflowState)
    ensures r.searchQuery == query
    ensures Trim(query) != "" ==>
      r.currentStep == Search && r.previousStep == Some(s.currentStep) &&
      r.navigationStack == s.navigationStack + [Search] && SameExtras(r, s.(searchQuery := query))
    ensures Trim(query) == "" ==> r == s.(searchQuery := query)
  {
    var t := s.(searchQuery := query);
    if Trim(query) != "" then NavigateTo(t, Search, true) else t
  }

  function ToggleAudioTrackbar(s: WorkflowState): (r: WorkflowState)
    ensures r.isAudioTrackbarOpen == !s.isAudioTrackbarOpen
    ensures r.(isAudioTrackbarOpen := s.isAudioTrackbarOpen) == s
  {
    s.(isAudioTrackbarOpen := !s.isAudioTrackbarOpen)
  }

  function OpenAudioTrackbar(s: WorkflowState): (r: WorkflowState)
    ensures r.isAudioTrackbarOpen
    ensures r.(isAudioTrackbarOpen := s.isAudioTrackbarOpen) == s
  {
    s.(isAudioTrackbarOpen := true)
  }

  function CloseAudioTrackbar(s: WorkflowState): (r: WorkflowState)
    ensures !r.isAudioTrackbarOpen
    ensures r.(isAudioTrackbarOpen := s.isAudioTrackbarOpen) == s
  {
    s.(isAudioTrackbarOpen := false)
  }

  function ClearSearch(s: WorkflowState): (r: WorkflowState)
    ensures r.searchQuery == ""
    ensures r.(searchQuery := s.searchQuery) == s
  {
    s.(searchQuery := "")
  }

  function ResetWorkflow(s: WorkflowState): WorkflowState
  {
    Initial()
  }

  /** Leaves the search step when it is showing, and opens it otherwise. */
  function ToggleSearchModal(s: WorkflowState): (r: WorkflowState)
    ensures s.currentStep == Search ==> r == GoBack(s)
    ensures s.currentStep != Search ==>
      r.currentStep == Search && r.previousStep == Some(s.currentStep) &&
      r.navigationStack == s.navigationStack + [Search] && SameExtras(r, s)
  {
    if s.currentStep == Search then GoBack(s) else NavigateTo(s, Search, true)
  }

  /** The callbacks of the hook, as one type of input event. */
  datatype Action =
    | Navigate(step: WorkflowStep, addToStack: bool)
    | Back
    | ToHome
    | ProfileClick(isAuthenticated: bool)
    | CloseProfile
    | MyChannelClick(myChannel: Option<ChannelData>)
    | ChannelClick(channel: ChannelData)
    | SnapClick(snap: SnapData)
    | SearchQuery(query: string)
    | ToggleTrackbar
    | OpenTrackbar
    | CloseTrackbar
    | ClearQuery
    | Reset
    | ToggleSearch

  function Apply(s: WorkflowState, a: Action): WorkflowState
  {
    match a
    case Navigate(step, add) => NavigateTo(s, step, add)
    case Back => GoBack(s)
    case ToHome => NavigateToHome(s)
    case ProfileClick(auth) => HandleProfileClick(s, auth)
    case CloseProfile => CloseProfileOverlay(s)
    case MyChannelClick(c) => HandleMyChannelClick(s, c)
    case ChannelClick(c) => HandleChannelClick(s, c)
    case SnapClick(snap) => HandleSnapClick(s, snap)
    case SearchQuery(q) => HandleSearchQuery(s, q)
    case ToggleTrackbar => ToggleAudioTrackbar(s)
    case OpenTrackbar => OpenAudioTrackbar(s)
    case CloseTrackbar => CloseAudioTrackbar(s)
    case ClearQuery => ClearSearch(s)
    case Reset => ResetWorkflow(s)
    case ToggleSearch => ToggleSearchModal(s)
  }

  /** The state after a sequence of callbacks, starting from `s`. */
  function Run(s: WorkflowState, actions: seq<Action>): WorkflowState
    decreases actions
  {
    if actions == [] then s else Run(Apply(s, actions[0]), actions[1..])
  }

  /** Every navigation the file performs itself pushes onto the stack. */
  predicate Pushes(a: Action)
  {
    a.Navigate? ==> a.addToStack
  }

  /** One callback keeps the stack non-empty and, unless it navigates without
      pushing, keeps the current step on top. */
  lemma ApplyKeepsStack(s: WorkflowState, a: Action)
    requires NonEmptyStack(s)
    ensures NonEmptyStack(Apply(s, a))
    ensures OnTop(s) && Pushes(a) ==> OnTop(Apply(s, a))
  {
    match a {
      case Navigate(step, add) =>
      case Back =>
      case ToHome =>
      case ProfileClick(auth) =>
      case CloseProfile =>
      case MyChannelClick(c) =>
      case ChannelClick(c) =>
      case SnapClick(snap) =>
      case SearchQuery(q) =>
      case ToggleTrackbar =>
      case OpenTrackbar =>
      case CloseTrackbar =>
      case ClearQuery =>
      case Reset =>
      case ToggleSearch =>
    }
  }

  /** Whatever callbacks run, the stack is never empty; when every explicit
      navigation pushes its step, as all of the hook's own callers do, the
      current step stays the top of the stack. */
  lemma {:induction false} RunKeepsStack(s: WorkflowState, actions: seq<Action>)
    requires NonEmptyStack(s)
    ensures NonEmptyStack(Run(s, actions))
    ensures OnTop(s) && (forall i :: 0 <= i < |actions| ==> Pushes(actions[i])) ==> OnTop(Run(s, actions))
    decreases actions
  {
    if actions != [] {
      ApplyKeepsStack(s, actions[0]);
      RunKeepsStack(Apply(s, actions[0]), actions[1..]);
      assert forall i :: 0 <= i < |actions[1..]| ==> actions[1..][i] == actions[i + 1];
    }
  }

  /** Going back right after a pushing navigation returns to the step and the
      stack from before it. */
  lemma BackUndoesNavigate(s: WorkflowState, step: WorkflowStep)
    requires OnTop(s)
    ensures GoBack(NavigateTo(s, step, true)).currentStep == s.currentStep
    ensures GoBack(NavigateTo(s, step, true)).navigationStack == s.navigationStack
    ensures GoBack(NavigateTo(s, step, true)).previousStep == Some(step)
  {
    assert (s.navigationStack + [step])[..|s.navigationStack|] == s.navigationStack;
  }

  /** Toggling the trackbar twice changes nothing. */
  lemma ToggleTwice(s: WorkflowState)
    ensures ToggleAudioTrackbar(ToggleAudioTrackbar(s)) == s
  {
  }

  /** Resetting gives the initial state whatever came before. */
  lemma ResetIsInitial(s: WorkflowState)
    ensures ResetWorkflow(s) == Initial()
  {
  }
}
