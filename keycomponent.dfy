/**
 * The page state machine of one key component (password, key file,
 * challenge-response) in the master-key editor. The visible page of the
 * stacked widget, the page remembered for "cancel" and the "component added"
 * flag are the whole state.
 */
module KeyComponent {

  /** The three pages of the component's stacked widget, in index order. */
  datatype Page = AddNew | Edit | LeaveOrRemove

  /** The stacked-widget index of a page. */
  function PageIndex(p: Page): (i: nat)
    ensures i < 3
    ensures p == AddNew <==> i == 0
    ensures p == Edit <==> i == 1
    ensures p == LeaveOrRemove <==> i == 2
  {
    match p
    case AddNew => 0
    case Edit => 1
    case LeaveOrRemove => 2
  }

  /** The cast of a stacked-widget index (0, 1 or 2) back to a page. */
  function PageAt(i: nat): (p: Page)
    requires i < 3
    ensures PageIndex(p) == i
  {
    if i == 0 then AddNew else if i == 1 then Edit else LeaveOrRemove
  }

  /** Casting an index to a page and back is the identity on pages. */
  lemma PageIndexRoundTrip(p: Page)
    ensures PageAt(PageIndex(p)) == p
  {
  }

  /**
   * The outcome of a component's validate(errorMessage): valid, or invalid
   * with the message it writes into errorMessage.
   */
  datatype Validation = Valid | Invalid(message: string)

  /** The observable state of a key component widget. */
  datatype ComponentState = ComponentState(page: Page, previousPage: Page, added: bool)

  /** The requests a component widget reacts to. */
  datatype Request =
    | ShowPage(target: Page)   // changeVisiblePage
    | AddRequested             // the "Add" button
    | EditRequested            // the "Change" button
    | RemovalRequested         // the "Remove" button
    | CancelRequested          // the "Cancel" button
    | SetAdded(flag: bool)     // setComponentAdded

  /** A freshly constructed component: nothing added, on the AddNew page. */
  const Initial := ComponentState(AddNew, AddNew, false)

  /** Showing a page remembers the page that was visible before. */
  function ShowPageTransition(s: ComponentState, p: Page): (t: ComponentState)
    ensures t.page == p && t.previousPage == s.page && t.added == s.added
  {
    ComponentState(p, s.page, s.added)
  }

  /** The page the component shows for an added flag (updateAddStatus). */
  function AddStatusPage(added: bool): (p: Page)
    ensures p != Edit
    ensures p == LeaveOrRemove <==> added
  {
    if added then LeaveOrRemove else AddNew
  }

  /** One transition of the component's state machine. */
  function Next(s: ComponentState, r: Request): (t: ComponentState)
    ensures r.SetAdded? ==> t.added == r.flag && t.previousPage == s.previousPage
    ensures r.SetAdded? && r.flag != s.added ==> t.page == AddStatusPage(r.flag)
    ensures !r.SetAdded? ==> t.added == s.added
    ensures r.CancelRequested? ==> t.page == s.previousPage && t.previousPage == s.previousPage
  {
    match r
    case ShowPage(p) => ShowPageTransition(s, p)
    case AddRequested => ShowPageTransition(s, Edit)
    case EditRequested => ShowPageTransition(s, Edit)
    case RemovalRequested => ShowPageTransition(s, AddNew)
    case CancelRequested => s.(page := s.previousPage)
    case SetAdded(b) =>
      if b == s.added then s
      else ComponentState(AddStatusPage(b), s.previousPage, b)
  }

  /** The state after a whole sequence of requests, applied left to right;
      its added flag is the last one explicitly set. */
  function Run(s: ComponentState, rs: seq<Request>): (t: ComponentState)
    ensures t.added == LastAddedFlag(rs, s.added)
    decreases |rs|
  {
    if rs == [] then s else Run(Next(s, rs[0]), rs[1..])
  }

  /** Add, then cancel: back on the page shown before the add. */
  lemma AddThenCancel(s: ComponentState)
    ensures Run(s, [AddRequested, CancelRequested]) == s.(previousPage := s.page)
  {
  }

  /** Cancel restores exactly the page shown before the last page change. */
  lemma ShowThenCancel(s: ComponentState, p: Page)
    ensures Next(Next(s, ShowPage(p)), CancelRequested).page == s.page
  {
  }

  /** From a fresh component, add then cancel returns to AddNew. */
  lemma FreshAddThenCancel()
    ensures Run(Initial, [AddRequested, CancelRequested]).page == AddNew
  {
  }

  /** A set component that is edited and then cancelled stays set. */
  lemma EditFromSetThenCancel(s: ComponentState)
    requires s.page == LeaveOrRemove
    ensures Run(s, [EditRequested, CancelRequested]).page == LeaveOrRemove
  {
  }

  /** Setting the flag to its current value changes nothing. */
  lemma SetAddedSameIsNoOp(s: ComponentState)
    ensures Next(s, SetAdded(s.added)) == s
  {
  }

  /** Setting the flag twice is setting it once. */
  lemma SetAddedIdempotent(s: ComponentState, b: bool)
    ensures Next(Next(s, SetAdded(b)), SetAdded(b)) == Next(s, SetAdded(b))
  {
  }

  /** Only setComponentAdded touches the flag: the last such request decides it. */
  function LastAddedFlag(rs: seq<Request>, flag: bool): bool
    decreases |rs|
  {
    if rs == [] then flag
    else LastAddedFlag(rs[1..], if rs[0].SetAdded? then rs[0].flag else flag)
  }

  /** Requests without a setComponentAdded never change the flag (remove included). */
  lemma {:induction false} RunWithoutSetAddedKeepsFlag(s: ComponentState, rs: seq<Request>)
    requires forall i :: 0 <= i < |rs| ==> !rs[i].SetAdded?
    ensures Run(s, rs).added == s.added
    decreases |rs|
  {
    if rs != [] {
      RunWithoutSetAddedKeepsFlag(Next(s, rs[0]), rs[1..]);
    }
  }

  /** A run made only of flag changes keeps the page in step with the flag and
      never touches the remembered page. */
  lemma {:induction false} SetAddedThenFlagOnlyKeepsPage(s: ComponentState, rs: seq<Request>)
    requires forall i :: 0 <= i < |rs| ==> rs[i].SetAdded?
    requires s.page == AddStatusPage(s.added)
    ensures Run(s, rs).page == AddStatusPage(Run(s, rs).added)
    ensures Run(s, rs).previousPage == s.previousPage
    decreases |rs|
  {
    if rs != [] {
      SetAddedThenFlagOnlyKeepsPage(Next(s, rs[0]), rs[1..]);
    }
  }

  /** The stacked widget of one key component. */
  class KeyComponentWidget {
    var page: Page            // the stacked widget's current index
    var previousPage: Page
    var isComponentAdded: bool

    function State(): ComponentState
      reads this
    {
      ComponentState(page, previousPage, isComponentAdded)
    }

    constructor ()
      ensures State() == Initial
    {
      page := AddNew;
      previousPage := AddNew;
      isComponentAdded := false;
    }

    method ChangeVisiblePage(p: Page)
      modifies this
      ensures State() == Next(old(State()), ShowPage(p))
    {
      previousPage := page;
      page := p;
    }

    method VisiblePage() returns (p: Page)
      ensures p == page
    {
      p := page;
    }

    method ComponentAdded() returns (b: bool)
      ensures b == isComponentAdded
    {
      b := isComponentAdded;
    }

    /** The slot connected to the componentAddChanged signal. */
    method UpdateAddStatus(added: bool)
      modifies this
      ensures page == AddStatusPage(added)
      ensures previousPage == old(previousPage) && isComponentAdded == old(isComponentAdded)
    {
      if added {
        page := LeaveOrRemove;
      } else {
        page := AddNew;
      }
    }

    /** Changing the flag emits componentAddChanged, which moves the page. */
    method SetComponentAdded(added: bool)
      modifies this
      ensures State() == Next(old(State()), SetAdded(added))
    {
      if isComponentAdded == added {
        return;
      }
      isComponentAdded := added;
      UpdateAddStatus(added);
    }

    method DoAdd()
      modifies this
      ensures State() == Next(old(State()), AddRequested)
    {
      ChangeVisiblePage(Edit);
    }

    method DoEdit()
      modifies this
      ensures State() == Next(old(State()), EditRequested)
    {
      ChangeVisiblePage(Edit);
    }

    method DoRemove()
      modifies this
      ensures State() == Next(old(State()), RemovalRequested)
    {
      ChangeVisiblePage(AddNew);
    }

    method CancelEdit()
      modifies this
      ensures State() == Next(old(State()), CancelRequested)
    {
      page := previousPage;
    }
  }
}
