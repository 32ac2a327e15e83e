/** Which component has the input focus while overlays come and go. What a `visible` callback answers,
    and which components are mounted, is the environment's choice between operations. */
module Focus {
  import opened Common

  class Component {
    const focusable: bool
    var focused: bool

    constructor (focusable: bool)
      ensures this.focusable == focusable && !focused
    {
      this.focusable := focusable;
      focused := false;
    }
  }

  class Entry {
    const component: Component
    const nonCapturing: bool
    var preFocus: Component?
    var hidden: bool
    var focusOrder: int
    var admitted: bool               // what the `visible` callback answers

    constructor (component: Component, nonCapturing: bool, admitted: bool, preFocus: Component?, focusOrder: int)
      ensures this.component == component && this.nonCapturing == nonCapturing && this.admitted == admitted
      ensures this.preFocus == preFocus && !hidden && this.focusOrder == focusOrder
    {
      this.component, this.nonCapturing, this.admitted := component, nonCapturing, admitted;
      this.preFocus, this.hidden, this.focusOrder := preFocus, false, focusOrder;
    }

    predicate Visible()
      reads this
    {
      !hidden && admitted
    }
  }

  datatype Resume = RestoreOverlay | FocusTarget(target: Component?)

  datatype Restore = Inactive | Eligible(overlay: Entry) | Blocked(overlay: Entry, blockedBy: Component, resume: Resume)

  /** `find` by component; null if there is none. */
  function FirstIn(stack: seq<Entry>, c: Component): (r: Entry?)
    ensures r == null <==> forall e <- stack :: e.component != c
    ensures r != null ==> r in stack && r.component == c
  {
    if stack == [] then null else if stack[0].component == c then stack[0] else FirstIn(stack[1..], c)
  }

  /** The first visible entry of a component; null if there is none. */
  function FirstVisible(stack: seq<Entry>, c: Component): (r: Entry?)
    reads stack
    ensures r == null <==> forall e <- stack :: e.component != c || !e.Visible()
    ensures r != null ==> r in stack && r.component == c && r.Visible()
  {
    if stack == [] then null
    else if stack[0].component == c && stack[0].Visible() then stack[0]
    else FirstVisible(stack[1..], c)
  }

  /** An overlay whose first entry is not visible. */
  predicate HiddenOverlay(stack: seq<Entry>, c: Component?)
    reads stack
  {
    c != null && var e := FirstIn(stack, c); e != null && !e.Visible()
  }

  predicate IsOverlay(stack: seq<Entry>, c: Component?) {
    c != null && FirstIn(stack, c) != null
  }

  /** No component is shown twice. */
  ghost predicate ShownOnce(stack: seq<Entry>) {
    forall i, j :: 0 <= i < j < |stack| ==> stack[i].component != stack[j].component
  }

  lemma NotHidden(stack: seq<Entry>, e: Entry)
    requires ShownOnce(stack) && e in stack && e.Visible()
    ensures !HiddenOverlay(stack, e.component) && IsOverlay(stack, e.component)
  {
    var f := FirstIn(stack, e.component);
    var i :| 0 <= i < |stack| && stack[i] == e;
    var j :| 0 <= j < |stack| && stack[j] == f;
  }

  lemma VisibleIsNotHidden(stack: seq<Entry>, c: Component?)
    requires ShownOnce(stack) && c != null && FirstVisible(stack, c) != null
    ensures !HiddenOverlay(stack, c) && IsOverlay(stack, c)
  {
    NotHidden(stack, FirstVisible(stack, c));
  }

  /** A restore counts only while its overlay is visible on the stack. */
  function IfVisible(stack: seq<Entry>, restore: Restore): (r: Restore)
    reads stack
    ensures r == Inactive || (r == restore && r.overlay in stack && r.overlay.Visible())
  {
    if restore.Inactive? || restore.overlay !in stack || !restore.overlay.Visible() then Inactive else restore
  }

  /** The restore hands the focus to an overlay that is not visible. */
  predicate ResumesHidden(stack: seq<Entry>, restore: Restore)
    reads stack
  {
    restore.Blocked? && restore.resume.FocusTarget? && HiddenOverlay(stack, restore.resume.target)
  }

  /** Where a restore sends the focus when no overlay has it. */
  function Due(stack: seq<Entry>, focus: Component?, lasting: Restore): Component?
    reads stack
  {
    var restore := IfVisible(stack, lasting);
    if IsOverlay(stack, focus) || restore.Inactive? || (restore.Blocked? && restore.blockedBy == focus) then focus
    else if restore.Blocked? && restore.resume.FocusTarget? then restore.resume.target
    else restore.overlay.component
  }

  /** Where the walk up the focus chain goes from a component. */
  function Up(stack: seq<Entry>, c: Component?): Component?
    reads stack
  {
    if c == null then null
    else
      var e := FirstIn(stack, c);
      if e == null then null else e.preFocus
  }

  function Walk(stack: seq<Entry>, c: Component?, n: nat): Component?
    reads stack
  {
    if n == 0 then c else Up(stack, Walk(stack, c, n - 1))
  }

  /** The component is somewhere on the focus chain that starts at `c`. */
  ghost predicate Reaches(stack: seq<Entry>, c: Component?, target: Component)
    reads stack
  {
    exists n: nat :: Walk(stack, c, n) == target
  }

  /** A set closed under walking up holds all of a chain that starts in it. */
  lemma {:induction false} WalkStays(stack: seq<Entry>, c: Component?, n: nat, closed: set<Component>)
    requires c == null || c in closed
    requires forall v <- closed :: Up(stack, v) == null || Up(stack, v) in closed
    ensures Walk(stack, c, n) == null || Walk(stack, c, n) in closed
  {
    if n > 0 { WalkStays(stack, c, n - 1, closed); }
  }

  // ---- what the focus decision is ----

  /** Focus and restore state when a blocked restore resumes. */
  function Resumed(restore: Restore, lasting: Restore): (Component?, Restore)
    requires restore.Blocked?
  {
    if restore.resume.RestoreOverlay? then (restore.overlay.component, lasting) else (restore.resume.target, Inactive)
  }

  /** The next focus, and the restore state before the next focus itself is looked at: a request for
      `component` when `previous` has the focus. */
  ghost function Choice(stack: seq<Entry>, previous: Component?, lasting: Restore, mounted: set<Component>,
                        component: Component?, clear: bool): (Component?, Restore)
    reads stack
  {
    var restore := IfVisible(stack, lasting);
    var previousOverlay: Entry? := if previous == null then null else FirstVisible(stack, previous);
    if component == null then
      if restore.Blocked? && restore.blockedBy == previous then Resumed(restore, lasting)
      else (null, if clear then Inactive else lasting)
    else if FirstIn(stack, component) != null then (component, lasting)
    else if restore.Blocked? && restore.blockedBy == previous then
      if restore.resume.FocusTarget? || restore.blockedBy !in mounted then Resumed(restore, lasting)
      else (component, Blocked(restore.overlay, component, restore.resume))
    else if previousOverlay != null && !restore.Inactive? && restore.overlay == previousOverlay
            && !Reaches(stack, previousOverlay.preFocus, component) then
      (component, Blocked(previousOverlay, component, RestoreOverlay))
    else (component, lasting)
  }

  /** A visible overlay that gets the focus becomes eligible. */
  function Reached(stack: seq<Entry>, next: Component?, restore: Restore): (Component?, Restore)
    reads stack
  {
    if next != null && FirstVisible(stack, next) != null then (next, Eligible(FirstVisible(stack, next)))
    else (next, restore)
  }

  /** Where a focus request leads. */
  ghost function Decision(stack: seq<Entry>, previous: Component?, lasting: Restore, mounted: set<Component>,
                          component: Component?, clear: bool): (Component?, Restore)
    reads stack
  {
    var (next, restore) := Choice(stack, previous, lasting, mounted, component, clear);
    Reached(stack, next, restore)
  }

  /** Without the claim of this overlay to get the focus back. */
  function Cleared(entry: Entry, restore: Restore): Restore {
    if !restore.Inactive? && restore.overlay == entry then Inactive else restore
  }

  class Manager {
    var focusedComponent: Component?
    var overlayStack: seq<Entry>
    var overlayFocusRestore: Restore
    var focusOrderCounter: int
    var mounted: set<Component>
    ghost var known: set<Component>
    ghost var entries: set<Entry>    // every entry ever made

    /** The flags agree with the focus, the restore state names an overlay on the stack, and no entry is
        on the stack twice. */
    ghost predicate Valid()
      reads this, known, entries
    {
      && FlagsAgree()
      && (forall e <- overlayStack :: e in entries)
      && (forall i, j :: 0 <= i < j < |overlayStack| ==> overlayStack[i] != overlayStack[j])
      && (forall e <- entries :: e.component in known && (e.preFocus == null || e.preFocus in known))
      && RestoreIsKnown(overlayFocusRestore)
    }

    ghost predicate FlagsAgree()
      reads this, known
    {
      && (focusedComponent == null || focusedComponent in known)
      && forall c <- known :: c.focusable ==> (c.focused <==> c == focusedComponent)
    }

    ghost predicate RestoreIsKnown(restore: Restore)
      reads this
    {
      && (!restore.Inactive? ==> restore.overlay in overlayStack)
      && (restore.Blocked? ==> restore.blockedBy in known)
      && (restore.Blocked? && restore.resume.FocusTarget? ==>
          restore.resume.target == null || restore.resume.target in known)
    }

    /** All components that will ever be used come with their flag off. */
    constructor (ghost components: set<Component>)
      requires forall c <- components :: !c.focused
      ensures Valid() && focusedComponent == null && overlayStack == [] && known == components && entries == {}
      ensures overlayFocusRestore == Inactive
    {
      focusedComponent, overlayStack, overlayFocusRestore, focusOrderCounter, mounted := null, [], Inactive, 0, {};
      known, entries := components, {};
    }

    // ---- decisions ----

    function VisibleRestore(): (r: Restore)
      reads this, overlayStack
    {
      IfVisible(overlayStack, overlayFocusRestore)
    }

    /** The next focus, and the restore state before the next focus itself is looked at. */
    ghost function Chosen(component: Component?, clear: bool): (Component?, Restore)
      reads this, overlayStack
    {
      Choice(overlayStack, focusedComponent, overlayFocusRestore, mounted, component, clear)
    }

    /** Where a focus request leads. */
    ghost function Decided(component: Component?, clear: bool): (Component?, Restore)
      reads this, overlayStack
    {
      Decision(overlayStack, focusedComponent, overlayFocusRestore, mounted, component, clear)
    }

    // ---- the methods ----

    /** The walk up the focus chain ends even when the chain is a cycle, and finds a component exactly
        when it is on the chain. */
    method IsOverlayFocusAncestor(entry: Entry, component: Component) returns (found: bool)
      requires Valid() && entry in entries
      ensures found <==> Reaches(overlayStack, entry.preFocus, component)
    {
      var visited: set<Component> := {};
      var current := entry.preFocus;
      ghost var n: nat := 0;
      while current != null && current !in visited
        invariant current == Walk(overlayStack, entry.preFocus, n)
        invariant current == null || current in known
        invariant visited <= known && component !in visited
        invariant entry.preFocus == null || entry.preFocus in visited || current == entry.preFocus
        invariant forall v <- visited :: Up(overlayStack, v) == current || Up(overlayStack, v) in visited
        decreases known - visited
      {
        ghost var before := visited;
        visited := visited + {current};
        if current == component {
          return true;
        }
        current := Up(overlayStack, current);
        n := n + 1;
      }
      forall k: nat ensures Walk(overlayStack, entry.preFocus, k) != component {
        WalkStays(overlayStack, entry.preFocus, k, visited);
      }
      found := false;
    }

    /** The next focus; the restore state is updated on the way. */
    method ChooseFocus(component: Component?, clear: bool) returns (nextFocus: Component?)
      requires Valid() && (component == null || component in known)
      modifies this`overlayFocusRestore
      ensures (nextFocus, overlayFocusRestore) == old(Chosen(component, clear))
      ensures RestoreIsKnown(overlayFocusRestore) && (nextFocus == null || nextFocus in known)
    {
      var previousFocus := focusedComponent;
      nextFocus := component;
      var previousFocusedOverlay: Entry? := if previousFocus == null then null
                                            else FirstVisible(overlayStack, previousFocus);
      var nextFocusIsOverlay := nextFocus != null && FirstIn(overlayStack, nextFocus) != null;
      var restoreState := VisibleRestore();
      if nextFocus != null && !nextFocusIsOverlay {
        if restoreState.Blocked? && restoreState.blockedBy == previousFocus {
          if restoreState.resume.FocusTarget? || restoreState.blockedBy !in mounted {
            nextFocus := ResolveBlocked(restoreState);
          } else {
            overlayFocusRestore := Blocked(restoreState.overlay, nextFocus, restoreState.resume);
          }
        } else if previousFocusedOverlay != null && !restoreState.Inactive?
            && restoreState.overlay == previousFocusedOverlay {
          var isAncestor := IsOverlayFocusAncestor(previousFocusedOverlay, nextFocus);
          if !isAncestor {
            overlayFocusRestore := Blocked(previousFocusedOverlay, nextFocus, RestoreOverlay);
          }
        }
      } else if nextFocus == null {
        if restoreState.Blocked? && restoreState.blockedBy == previousFocus {
          nextFocus := ResolveBlocked(restoreState);
        } else if clear {
          overlayFocusRestore := Inactive;
        }
      }
    }

    method SetFocusInternal(component: Component?, clear: bool)
      requires Valid() && (component == null || component in known)
      modifies this`focusedComponent, this`overlayFocusRestore, known
      ensures Valid()
      ensures (focusedComponent, overlayFocusRestore) == old(Decided(component, clear))
    {
      var nextFocus := ChooseFocus(component, clear);
      MoveFocus(nextFocus);
      var focusedOverlay: Entry? := if nextFocus == null then null else FirstVisible(overlayStack, nextFocus);
      if focusedOverlay != null {
        overlayFocusRestore := Eligible(focusedOverlay);
      }
    }

    /** The flag goes from the old focus to the new one. */
    method MoveFocus(nextFocus: Component?)
      requires FlagsAgree() && (nextFocus == null || nextFocus in known)
      modifies this`focusedComponent, known
      ensures FlagsAgree() && focusedComponent == nextFocus
    {
      if focusedComponent != null && focusedComponent.focusable {
        focusedComponent.focused := false;
      }
      focusedComponent := nextFocus;
      if nextFocus != null && nextFocus.focusable {
        nextFocus.focused := true;
      }
    }

    method ResolveBlocked(restoreState: Restore) returns (target: Component?)
      requires restoreState.Blocked? && Valid()
      modifies this`overlayFocusRestore
      ensures (target, overlayFocusRestore) == Resumed(restoreState, old(overlayFocusRestore))
    {
      if restoreState.resume.RestoreOverlay? {
        return restoreState.overlay.component;
      }
      overlayFocusRestore := Inactive;
      target := restoreState.resume.target;
    }

    method SetFocus(component: Component?)
      requires Valid() && (component == null || component in known)
      modifies this`focusedComponent, this`overlayFocusRestore, known
      ensures Valid()
      ensures (focusedComponent, overlayFocusRestore) == old(Decided(component, true))
    {
      SetFocusInternal(component, true);
    }

    /** With no restore in the way, a focus request is granted as it is. */
    lemma GrantedWhenInactive(component: Component?, clear: bool)
      requires VisibleRestore().Inactive?
      ensures Decided(component, clear).0 == component
      ensures component == null ==> Decided(component, true).1 == Inactive
    {
    }

    /** A request for an overlay's component is granted, and its visible entry becomes eligible. */
    lemma OverlayIsGranted(component: Component, clear: bool)
      requires FirstIn(overlayStack, component) != null
      ensures Decided(component, clear).0 == component
      ensures FirstVisible(overlayStack, component) != null ==>
                Decided(component, clear).1 == Eligible(FirstVisible(overlayStack, component))
    {
    }

    /** Leaving the eligible overlay for a component off its focus chain blocks the restore: the overlay
        gets the focus back when that component is unmounted or gives the focus up. */
    lemma LeavingBlocks(component: Component)
      requires overlayFocusRestore.Eligible? && overlayFocusRestore.overlay in overlayStack
          && overlayFocusRestore.overlay.Visible()
      requires focusedComponent == overlayFocusRestore.overlay.component
      requires FirstVisible(overlayStack, overlayFocusRestore.overlay.component) == overlayFocusRestore.overlay
      requires FirstIn(overlayStack, component) == null
      ensures Decided(component, true) ==
              (component, if Reaches(overlayStack, overlayFocusRestore.overlay.preFocus, component)
               then overlayFocusRestore
                          else Blocked(overlayFocusRestore.overlay, component, RestoreOverlay))
    {
      assert FirstVisible(overlayStack, component) == null;
    }

    /** From the component that blocks the restore, a request for another one resumes it when the blocking component
        is unmounted or the restore is meant for a target of its own; otherwise the block moves on with the focus. */
    lemma BlockMovesOn(component: Component, clear: bool)
      requires overlayFocusRestore.Blocked? && overlayFocusRestore.overlay in overlayStack
          && overlayFocusRestore.overlay.Visible()
      requires focusedComponent == overlayFocusRestore.blockedBy && FirstIn(overlayStack, component) == null
      ensures var restore := overlayFocusRestore;
              && (restore.resume.RestoreOverlay? && restore.blockedBy !in mounted ==>
                    Decided(component, clear).0 == restore.overlay.component && Decided(component, clear).1.Eligible?)
              && (restore.resume.RestoreOverlay? && restore.blockedBy in mounted ==>
                    Decided(component, clear) == (component, Blocked(restore.overlay, component, RestoreOverlay)))
              && (restore.resume.FocusTarget? ==>
                    Decided(component, clear).0 == restore.resume.target
                    && (!Decided(component, clear).1.Eligible? ==> Decided(component, clear).1.Inactive?))
    {
      assert FirstVisible(overlayStack, component) == null;
      assert FirstVisible(overlayStack, overlayFocusRestore.overlay.component) != null;
    }

    lemma BlockedResumes(clear: bool)
      requires overlayFocusRestore.Blocked? && overlayFocusRestore.overlay in overlayStack
          && overlayFocusRestore.overlay.Visible()
      requires focusedComponent == overlayFocusRestore.blockedBy && overlayFocusRestore.resume.RestoreOverlay?
      ensures Decided(null, clear).0 == overlayFocusRestore.overlay.component && Decided(null, clear).1.Eligible?
    {
      assert FirstVisible(overlayStack, overlayFocusRestore.overlay.component) != null;
    }

    // ---- overlays ----

    ghost predicate Capturing(e: Entry)
      reads e
    {
      !e.nonCapturing && e.Visible()
    }

    /** The visible capturing overlay in front, if there is one. */
    ghost predicate IsTopmost(r: Entry?)
      reads this, overlayStack
    {
      if r == null then forall e <- overlayStack :: !Capturing(e)
      else r in overlayStack && Capturing(r) && forall e <- overlayStack :: Capturing(e) ==>
          e.focusOrder <= r.focusOrder
    }

    /** If some visible overlay captures input, the one in front has the focus. */
    ghost predicate FrontHasFocus()
      reads this, overlayStack
    {
      (forall e <- overlayStack :: !Capturing(e)) || exists f ::
        f in overlayStack && IsTopmost(f) && f.component == focusedComponent
    }

    method GetTopmostVisibleOverlay() returns (topmost: Entry?)
      ensures IsTopmost(topmost)
    {
      topmost := null;
      for i := 0 to |overlayStack|
        invariant topmost == null ==> forall k :: 0 <= k < i ==> !Capturing(overlayStack[k])
        invariant topmost != null ==> topmost in overlayStack && Capturing(topmost)
        invariant topmost != null ==> forall k :: 0 <= k < i && Capturing(overlayStack[k]) ==>
            overlayStack[k].focusOrder <= topmost.focusOrder
      {
        var overlay := overlayStack[i];
        if overlay.nonCapturing || !overlay.Visible() {
          continue;
        }
        if topmost == null || overlay.focusOrder > topmost.focusOrder {
          topmost := overlay;
        }
      }
    }

    method ClearFor(entry: Entry)
      requires Valid()
      modifies this`overlayFocusRestore
      ensures Valid()
      ensures overlayFocusRestore == Cleared(entry, old(overlayFocusRestore))
    {
      if !overlayFocusRestore.Inactive? && overlayFocusRestore.overlay == entry {
        overlayFocusRestore := Inactive;
      }
    }

    method PushEntry(component: Component, nonCapturing: bool, admitted: bool) returns (entry: Entry)
      requires Valid() && component in known
      modifies this`focusOrderCounter, this`entries, this`overlayStack
      ensures Valid() && fresh(entry) && entries == old(entries) + {entry}
      ensures overlayStack == old(overlayStack) + [entry]
      ensures entry.component == component && entry.nonCapturing == nonCapturing && entry.admitted == admitted
      ensures entry.preFocus == focusedComponent && !entry.hidden
      ensures entry.focusOrder == focusOrderCounter == old(focusOrderCounter) + 1
    {
      focusOrderCounter := focusOrderCounter + 1;
      entry := new Entry(component, nonCapturing, admitted, focusedComponent, focusOrderCounter);
      entries := entries + {entry};
      overlayStack := overlayStack + [entry];
    }

    /** A visible capturing overlay takes the focus when it is shown, and remembers who had it. */
    method ShowOverlay(component: Component, nonCapturing: bool, admitted: bool) returns (entry: Entry)
      requires Valid() && component in known
      modifies this, known
      ensures Valid() && fresh(entry) && entries == old(entries) + {entry} && known == old(known)
      ensures overlayStack == old(overlayStack) + [entry] && mounted == old(mounted)
      ensures entry.component == component && entry.nonCapturing == nonCapturing && entry.admitted == admitted
      ensures entry.preFocus == old(focusedComponent) && !entry.hidden
      ensures entry.focusOrder == focusOrderCounter == old(focusOrderCounter) + 1
      ensures if !nonCapturing && admitted then focusedComponent == component && overlayFocusRestore.Eligible?
                                                && overlayFocusRestore.overlay.component == component
              else focusedComponent == old(focusedComponent) && overlayFocusRestore == old(overlayFocusRestore)
    {
      entry := PushEntry(component, nonCapturing, admitted);
      if !nonCapturing && entry.Visible() {
        SetFocus(component);
      }
    }

    /** Entries that would restore the focus to a removed overlay restore it to what that one would. */
    method RetargetOverlayPreFocus(removed: Entry)
      requires Valid() && removed in overlayStack
      modifies overlayStack
      ensures Valid()
      ensures forall e <- entries ::
                e.hidden == old(e.hidden) && e.focusOrder == old(e.focusOrder) && e.admitted == old(e.admitted)
      ensures forall e <- entries :: e.preFocus ==
                if e in overlayStack && e != removed && old(e.preFocus) == removed.component
                then old(removed.preFocus) else old(e.preFocus)
    {
      for i := 0 to |overlayStack|
        invariant forall e <- entries ::
                  e.hidden == old(e.hidden) && e.focusOrder == old(e.focusOrder) && e.admitted == old(e.admitted)
        invariant forall e <- entries :: e !in overlayStack[..i] ==> e.preFocus == old(e.preFocus)
        invariant forall e <- overlayStack[..i] :: e.preFocus ==
                    if e != removed && old(e.preFocus) == removed.component then old(removed.preFocus)
                    else old(e.preFocus)
        invariant Valid()
      {
        var overlay := overlayStack[i];
        assert overlayStack[..i + 1] == overlayStack[..i] + [overlay];
        if overlay != removed && overlay.preFocus == removed.component {
          overlay.preFocus := removed.preFocus;
        }
      }
      assert overlayStack[..|overlayStack|] == overlayStack;
    }

    /** Hand the focus to the visible capturing overlay in front, or else to `fallback`. */
    method RefocusFrom(fallback: Component?) returns (ghost topVisible: Entry?)
      requires Valid() && (fallback == null || fallback in known)
      modifies this`focusedComponent, this`overlayFocusRestore, known
      ensures Valid()
      ensures IsTopmost(topVisible)
      ensures topVisible != null ==> focusedComponent == topVisible.component && overlayFocusRestore.Eligible?
      ensures (focusedComponent, overlayFocusRestore)
           == old(Decided(if topVisible != null then topVisible.component else fallback, true))
    {
      var top := GetTopmostVisibleOverlay();
      topVisible := top;
      SetFocus(if top != null then top.component else fallback);
    }

    /** Entries on the stack restore the focus past `removed`. */
    twostate predicate Retargeted(removed: Entry)
      reads this, overlayStack
    {
      forall e <- old(overlayStack) :: e in overlayStack ==>
        e.preFocus == if old(e.preFocus) == removed.component then old(removed.preFocus) else old(e.preFocus)
    }

    /** The focus was asked for the visible overlay in front, or with none for what had it before `entry`. */
    ghost predicate HandedOn(entry: Entry, previous: Component?, restore: Restore)
      reads this, overlayStack, entry
    {
      if IsTopmost(null) then AskedFor(entry.preFocus, previous, Cleared(entry, restore))
      else exists top <- overlayStack :: IsTopmost(top) && AskedFor(top.component, previous, Cleared(entry, restore))
    }

    /** Focus and restore are what a request for `target` led to. */
    ghost predicate AskedFor(target: Component?, previous: Component?, restore: Restore)
      reads this, overlayStack
    {
      (focusedComponent, overlayFocusRestore) == Decision(overlayStack, previous, restore, mounted, target, true)
    }

    /** Take entry `index` off the stack; if it had the focus, the focus goes on. */
    method Remove(entry: Entry, index: nat)
      requires Valid() && index < |overlayStack| && overlayStack[index] == entry
      modifies this`focusedComponent, this`overlayFocusRestore, this`overlayStack, known, overlayStack
      ensures Valid()
      ensures overlayStack == old(overlayStack)[..index] + old(overlayStack)[index + 1..] && entry !in overlayStack
      ensures Retargeted(entry)
      ensures forall e <- entries ::
                e.hidden == old(e.hidden) && e.focusOrder == old(e.focusOrder) && e.admitted == old(e.admitted)
      ensures old(focusedComponent) != entry.component ==>
                focusedComponent == old(focusedComponent)
                && (!old(Claims(entry)) ==> overlayFocusRestore == old(overlayFocusRestore))
      ensures old(focusedComponent) == entry.component ==>
                FrontHasFocus() && HandedOn(entry, old(focusedComponent), old(overlayFocusRestore))
    {
      Detach(entry, index);
      if focusedComponent == entry.component {
        ghost var _ := HandOn(entry, old(overlayFocusRestore));
      }
    }

    /** The overlay that had the focus is gone or hidden: the focus goes on. */
    method HandOn(entry: Entry, ghost restore: Restore) returns (ghost topVisible: Entry?)
      requires Valid() && (entry.preFocus == null || entry.preFocus in known)
      requires overlayFocusRestore == Cleared(entry, restore)
      modifies this`focusedComponent, this`overlayFocusRestore, known
      ensures Valid() && IsTopmost(topVisible) && FrontHasFocus()
      ensures topVisible != null ==> focusedComponent == topVisible.component
      ensures HandedOn(entry, old(focusedComponent), restore)
    {
      topVisible := RefocusFrom(entry.preFocus);
      if topVisible != null { assert topVisible in overlayStack; }
    }

    method Detach(entry: Entry, index: nat)
      requires Valid() && index < |overlayStack| && overlayStack[index] == entry
      modifies this`overlayFocusRestore, this`overlayStack, overlayStack
      ensures Valid() && overlayFocusRestore == Cleared(entry, old(overlayFocusRestore))
      ensures overlayStack == old(overlayStack)[..index] + old(overlayStack)[index + 1..] && entry !in overlayStack
      ensures Retargeted(entry)
      ensures forall e <- entries ::
                e.hidden == old(e.hidden) && e.focusOrder == old(e.focusOrder) && e.admitted == old(e.admitted)
    {
      ClearFor(entry);
      RetargetOverlayPreFocus(entry);
      TakeOff(index);
    }

    method TakeOff(index: nat)
      requires Valid() && index < |overlayStack|
      requires !overlayFocusRestore.Inactive? ==> overlayFocusRestore.overlay != overlayStack[index]
      modifies this`overlayStack
      ensures Valid()
      ensures overlayStack == old(overlayStack)[..index] + old(overlayStack)[index + 1..]
          && old(overlayStack[index]) !in overlayStack
    {
      ghost var removed, stack := overlayStack[index], overlayStack;
      overlayStack := overlayStack[..index] + overlayStack[index + 1..];
      if !overlayFocusRestore.Inactive? {
        ghost var k :| 0 <= k < |stack| && stack[k] == overlayFocusRestore.overlay;
        assert overlayStack[if k < index then k else k - 1] == overlayFocusRestore.overlay;
      }
    }

    method HideOverlay()
      requires Valid()
      modifies this`focusedComponent, this`overlayFocusRestore, this`overlayStack, known, overlayStack
      ensures Valid()
      ensures old(overlayStack) == [] ==> overlayStack == [] && focusedComponent == old(focusedComponent)
      ensures old(overlayStack) != [] ==>
                var top := old(overlayStack)[|old(overlayStack)| - 1];
                && overlayStack == old(overlayStack)[..|old(overlayStack)| - 1]
                && Retargeted(top)
                && (if old(focusedComponent) == top.component then
                      FrontHasFocus() && HandedOn(top, old(focusedComponent), old(overlayFocusRestore))
                    else focusedComponent == old(focusedComponent))
    {
      if |overlayStack| == 0 {
        return;
      }
      ghost var stack := overlayStack;
      Remove(overlayStack[|overlayStack| - 1], |overlayStack| - 1);
      assert stack[|stack| - 1 + 1..] == [];
    }

    // ---- handles ----

    method Hide(entry: Entry)
      requires Valid() && entry in entries
      modifies this`focusedComponent, this`overlayFocusRestore, this`overlayStack, known, overlayStack
      ensures Valid() && entry !in overlayStack
      ensures entry !in old(overlayStack) ==>
          overlayStack == old(overlayStack) && focusedComponent == old(focusedComponent)
      ensures entry in old(overlayStack) ==>
                exists i :: 0 <= i < |old(overlayStack)| && old(overlayStack)[i] == entry
                  && overlayStack == old(overlayStack)[..i] + old(overlayStack)[i + 1..]
      ensures entry in old(overlayStack) ==> Retargeted(entry)
      ensures entry in old(overlayStack) && old(focusedComponent) == entry.component ==>
                FrontHasFocus() && HandedOn(entry, old(focusedComponent), old(overlayFocusRestore))
      ensures old(focusedComponent) != entry.component ==>
                focusedComponent == old(focusedComponent)
                && (!old(Claims(entry)) ==> overlayFocusRestore == old(overlayFocusRestore))
      ensures forall e <- entries ::
                e.hidden == old(e.hidden) && e.focusOrder == old(e.focusOrder) && e.admitted == old(e.admitted)
    {
      var index := 0;
      while index < |overlayStack| && overlayStack[index] != entry
        invariant index <= |overlayStack| && entry !in overlayStack[..index]
      {
        index := index + 1;
      }
      if index < |overlayStack| {
        Remove(entry, index);
      } else {
        assert overlayStack[..index] == overlayStack;
      }
    }

    /** Hiding moves the focus on; showing again takes it, with the overlay in front. */
    method SetHidden(entry: Entry, hidden: bool)
      requires Valid() && entry in entries
      modifies this`focusedComponent, this`overlayFocusRestore, this`focusOrderCounter, known, entry
      ensures Valid() && entry.hidden == hidden && entry.preFocus == old(entry.preFocus)
      ensures hidden == old(entry.hidden) ==>
          focusedComponent == old(focusedComponent) && overlayFocusRestore == old(overlayFocusRestore)
      ensures !hidden && old(entry.hidden) && Capturing(entry) && entry in overlayStack ==>
                focusedComponent == entry.component
                    && entry.focusOrder == focusOrderCounter == old(focusOrderCounter) + 1
      ensures hidden && old(focusedComponent) != entry.component ==>
                focusedComponent == old(focusedComponent)
                && (!old(Claims(entry)) ==> overlayFocusRestore == old(overlayFocusRestore))
      ensures hidden && !old(entry.hidden) && old(focusedComponent) == entry.component ==>
                FrontHasFocus() && HandedOn(entry, old(focusedComponent), old(overlayFocusRestore))
    {
      if entry.hidden == hidden {
        return;
      }
      entry.hidden := hidden;
      if hidden {
        ClearFor(entry);
        if focusedComponent == entry.component {
          ghost var _ := HandOn(entry, old(overlayFocusRestore));
        }
      } else if !entry.nonCapturing && entry.Visible() {
        focusOrderCounter := focusOrderCounter + 1;
        entry.focusOrder := focusOrderCounter;
        SetFocus(entry.component);
      }
    }

    /** A visible overlay of this component gets the focus back when no overlay has it. */
    ghost predicate EligibleFor(c: Component)
      reads this, overlayStack
    {
      overlayFocusRestore.Eligible? && overlayFocusRestore.overlay in overlayStack
          && overlayFocusRestore.overlay.Visible() && overlayFocusRestore.overlay.component == c
    }

    method FocusOverlay(entry: Entry)
      requires Valid() && entry in entries
      modifies this`focusedComponent, this`overlayFocusRestore, this`focusOrderCounter, known, entry
      ensures Valid() && entry.preFocus == old(entry.preFocus) && entry.hidden == old(entry.hidden)
      ensures if entry in overlayStack && old(entry.Visible()) then
                && focusedComponent == entry.component
                && EligibleFor(entry.component)
                && entry.focusOrder == focusOrderCounter == old(focusOrderCounter) + 1
              else focusedComponent == old(focusedComponent) && overlayFocusRestore == old(overlayFocusRestore)
    {
      if entry !in overlayStack || !entry.Visible() {
        return;
      }
      focusOrderCounter := focusOrderCounter + 1;
      entry.focusOrder := focusOrderCounter;
      OverlayIsGranted(entry.component, true);
      SetFocus(entry.component);
    }

    /** The overlay would get the focus back. */
    ghost predicate Claims(entry: Entry)
      reads this
    {
      !overlayFocusRestore.Inactive? && overlayFocusRestore.overlay == entry
    }

    /** The overlay would get the focus back from the component that has it. */
    ghost predicate BlockedNow(entry: Entry)
      reads this
    {
      overlayFocusRestore.Blocked? && overlayFocusRestore.overlay == entry
          && focusedComponent == overlayFocusRestore.blockedBy
    }

    /** Release the focus of an overlay, or its claim to get it back. */
    method Unfocus(entry: Entry, options: Option<Component?>) returns (ghost topVisible: Entry?)
      requires Valid() && entry in entries
      requires options.Some? && options.value != null ==> options.value in known
      modifies this`focusedComponent, this`overlayFocusRestore, known
      ensures Valid()
      ensures old(focusedComponent != entry.component && !Claims(entry)) ==>
                focusedComponent == old(focusedComponent) && overlayFocusRestore == old(overlayFocusRestore)
      ensures old(BlockedNow(entry)) ==>
                focusedComponent == old(focusedComponent)
                && overlayFocusRestore == if options.Some?
                    then Blocked(entry, old(overlayFocusRestore.blockedBy), FocusTarget(options.value)) else Inactive
      ensures old(Claims(entry) && !BlockedNow(entry)) ==>
                Released(old(focusedComponent), entry, options, topVisible)
      ensures old(focusedComponent == entry.component && !BlockedNow(entry)) ==>
                IsTopmost(topVisible)
                && GoneOn(old(focusedComponent), entry, old(overlayFocusRestore), options, topVisible)
    {
      topVisible := null;
      var isFocused := focusedComponent == entry.component;
      var restoreState := overlayFocusRestore;
      var hasPendingRestore := !restoreState.Inactive? && restoreState.overlay == entry;
      if !isFocused && !hasPendingRestore {
        return;
      }
      if restoreState.Blocked? && restoreState.overlay == entry && focusedComponent == restoreState.blockedBy {
        overlayFocusRestore := if options.Some?
            then Blocked(entry, restoreState.blockedBy, FocusTarget(options.value)) else Inactive;
        return;
      }
      topVisible := Release(entry, options);
    }

    /** The claim is gone; the focus is where the caller asked, or at the overlay in front, or where it
        was before the overlay. */
    ghost predicate Released(previous: Component?, entry: Entry, options: Option<Component?>, topVisible: Entry?)
      reads this, overlayStack, entry
    {
      if options.Some? then focusedComponent == options.value
      else if previous != entry.component then focusedComponent == previous && overlayFocusRestore == Inactive
      else IsTopmost(topVisible)
           && focusedComponent == if topVisible != null && topVisible != entry then topVisible.component
                                  else entry.preFocus
    }

    /** The focus went where the caller asked, or to the overlay in front, or to what had it before. */
    ghost predicate GoneOn(previous: Component?, entry: Entry, restore: Restore, options: Option<Component?>,
                           topVisible: Entry?)
      reads this, overlayStack, entry
    {
      var target := if options.Some? then options.value
                    else if topVisible != null && topVisible != entry then topVisible.component else entry.preFocus;
      AskedFor(target, previous, Cleared(entry, restore))
    }

    method Release(entry: Entry, options: Option<Component?>) returns (ghost topVisible: Entry?)
      requires Valid() && entry in entries
      requires options.Some? && options.value != null ==> options.value in known
      requires focusedComponent == entry.component || Claims(entry)
      modifies this`focusedComponent, this`overlayFocusRestore, known
      ensures Valid()
      ensures old(Claims(entry)) ==> Released(old(focusedComponent), entry, options, topVisible)
      ensures old(focusedComponent) == entry.component || options.Some? ==>
                IsTopmost(topVisible)
                && GoneOn(old(focusedComponent), entry, old(overlayFocusRestore), options, topVisible)
    {
      topVisible := null;
      ghost var previous, restore := focusedComponent, overlayFocusRestore;
      var isFocused := focusedComponent == entry.component;
      ClearFor(entry);
      if isFocused || options.Some? {
        topVisible := FocusPast(entry, options, restore);
        if Cleared(entry, restore).Inactive? {
          ReleasedWhenGone(previous, entry, restore, options, topVisible);
        }
      }
    }

    method FocusPast(entry: Entry, options: Option<Component?>, ghost restore: Restore)
        returns (ghost topVisible: Entry?)
      requires Valid() && entry in entries && overlayFocusRestore == Cleared(entry, restore)
      requires options.Some? && options.value != null ==> options.value in known
      modifies this`focusedComponent, this`overlayFocusRestore, known
      ensures Valid() && IsTopmost(topVisible)
      ensures GoneOn(old(focusedComponent), entry, restore, options, topVisible)
    {
      var top := GetTopmostVisibleOverlay();
      topVisible := top;
      var fallbackTarget := if top != null && top != entry then top.component else entry.preFocus;
      SetFocus(if options.Some? then options.value else fallbackTarget);
    }

    lemma ReleasedWhenGone(previous: Component?, entry: Entry, restore: Restore, options: Option<Component?>,
                           topVisible: Entry?)
      requires GoneOn(previous, entry, restore, options, topVisible) && IsTopmost(topVisible)
      requires Cleared(entry, restore).Inactive?
      requires previous == entry.component || options.Some?
      ensures Released(previous, entry, options, topVisible)
    {
    }

    // ---- input ----

    /** A focused overlay that is no longer visible loses the focus. Where input goes from there is settled. */
    method LeaveHiddenOverlay()
      requires Valid()
      modifies this`focusedComponent, this`overlayFocusRestore, known
      ensures Valid()
      ensures old(!HiddenFocus()) ==>
          focusedComponent == old(focusedComponent) && overlayFocusRestore == old(overlayFocusRestore)
      ensures old(HiddenFocus()) ==> FrontHasFocus()
      ensures old(HiddenFocus()) && IsTopmost(null) ==>
                (focusedComponent, overlayFocusRestore)
                    == old(Decided(FirstIn(overlayStack, focusedComponent).preFocus, false))
      ensures old(HiddenFocus() ==> IsTopmost(null)) ==>
                Due(overlayStack, focusedComponent, overlayFocusRestore) == old(InputTarget())
      ensures old(ShownOnce(overlayStack) && HiddenFocus() && !IsTopmost(null)) ==>
                !HiddenOverlay(overlayStack, Due(overlayStack, focusedComponent, overlayFocusRestore))
    {
      if focusedComponent == null {
        return;
      }
      var focusedOverlay := FirstIn(overlayStack, focusedComponent);
      if focusedOverlay != null && !focusedOverlay.Visible() {
        MoveOnFrom(focusedOverlay);
      }
    }

    /** The focus goes to the visible overlay in front, or to what had it before the overlay. */
    method MoveOnFrom(focusedOverlay: Entry)
      requires Valid() && HiddenFocus() && focusedOverlay == FirstIn(overlayStack, focusedComponent)
      modifies this`focusedComponent, this`overlayFocusRestore, known
      ensures Valid() && FrontHasFocus()
      ensures IsTopmost(null) ==>
                (focusedComponent, overlayFocusRestore) == old(Decided(focusedOverlay.preFocus, false))
      ensures IsTopmost(null) || !ShownOnce(overlayStack)
          || !HiddenOverlay(overlayStack, Due(overlayStack, focusedComponent, overlayFocusRestore))
    {
      var topVisible := GetTopmostVisibleOverlay();
      if topVisible != null {
        FocusFront(topVisible);
      } else {
        SetFocusInternal(focusedOverlay.preFocus, false);
      }
    }

    method FocusFront(f: Entry)
      requires Valid() && IsTopmost(f)
      modifies this`focusedComponent, this`overlayFocusRestore, known
      ensures Valid() && IsTopmost(f) && FrontHasFocus()
      ensures ShownOnce(overlayStack) ==>
                !HiddenOverlay(overlayStack, Due(overlayStack, focusedComponent, overlayFocusRestore))
    {
      OverlayIsGranted(f.component, true);
      SetFocus(f.component);
      if ShownOnce(overlayStack) {
        NotHidden(overlayStack, f);
      }
    }

    ghost predicate HiddenFocus()
      reads this, overlayStack
    {
      HiddenOverlay(overlayStack, focusedComponent)
    }

    /** Where input goes with no visible overlay in front: from an invisible overlay back to what had the focus
        before, and from there where a restore is due. */
    ghost function InputTarget(): Component?
      reads this, overlayStack
    {
      if HiddenFocus() then
        var (focus, restore) := Decided(FirstIn(overlayStack, focusedComponent).preFocus, false);
        Due(overlayStack, focus, restore)
      else Due(overlayStack, focusedComponent, overlayFocusRestore)
    }

    /** Input will go to an overlay that is not visible: with no visible overlay in front, what had the focus
        before the invisible overlay is another one, or a blocked restore leads to one. */
    ghost predicate MissesInput()
      reads this, overlayStack
    {
      var restore := VisibleRestore();
      if HiddenFocus() then
        var before := FirstIn(overlayStack, focusedComponent).preFocus;
        && IsTopmost(null)
        && (HiddenOverlay(overlayStack, before)
            || (!IsOverlay(overlayStack, before) && ResumesHidden(overlayStack, restore)
                && (restore.blockedBy == focusedComponent || restore.blockedBy != before)))
      else
        && !IsOverlay(overlayStack, focusedComponent)
        && ResumesHidden(overlayStack, restore)
        && restore.blockedBy != focusedComponent
    }

    /** From an invisible overlay, with none in front, the focus goes to what had it before, and from there
        where a restore is due. */
    lemma MissesAsDecided()
      requires Valid() && ShownOnce(overlayStack) && HiddenFocus() && IsTopmost(null)
      ensures var (focus, restore) := Decided(FirstIn(overlayStack, focusedComponent).preFocus, false);
              HiddenOverlay(overlayStack, Due(overlayStack, focus, restore)) <==> MissesInput()
    {
      var before := FirstIn(overlayStack, focusedComponent).preFocus;
      if IsOverlay(overlayStack, before) {
        OverlayIsGranted(before, false);
      } else {
        MissesFurtherOn(before);
      }
    }

    lemma MissesFurtherOn(before: Component?)
      requires Valid() && ShownOnce(overlayStack) && HiddenFocus()
      requires before == FirstIn(overlayStack, focusedComponent).preFocus && !IsOverlay(overlayStack, before)
      ensures var (focus, restore) := Decided(before, false);
              HiddenOverlay(overlayStack, Due(overlayStack, focus, restore))
              <==> ResumesHidden(overlayStack, VisibleRestore())
                   && (VisibleRestore().blockedBy == focusedComponent || VisibleRestore().blockedBy != before)
    {
      if FirstVisible(overlayStack, focusedComponent) != null {
        VisibleIsNotHidden(overlayStack, focusedComponent);
        assert false;
      }
      if VisibleRestore().Inactive? {
        InactiveGoesBack(before);
      } else {
        NotHidden(overlayStack, VisibleRestore().overlay);
        if VisibleRestore().Blocked? {
          MissesBlocked(before);
        }
      }
    }

    lemma MissesBlocked(before: Component?)
      requires Valid() && ShownOnce(overlayStack) && HiddenFocus() && !IsOverlay(overlayStack, before)
      requires FirstVisible(overlayStack, focusedComponent) == null && VisibleRestore().Blocked?
      ensures var (focus, restore) := Decided(before, false);
              HiddenOverlay(overlayStack, Due(overlayStack, focus, restore))
              <==> ResumesHidden(overlayStack, VisibleRestore())
                   && (VisibleRestore().blockedBy == focusedComponent || VisibleRestore().blockedBy != before)
    {
      var restore := VisibleRestore();
      NotHidden(overlayStack, restore.overlay);
      if restore.blockedBy != focusedComponent {
        assert before != null ==> FirstVisible(overlayStack, before) == null;
        assert Decided(before, false) == (before, restore);
      } else if restore.resume.FocusTarget? {
        ResumedAt(restore.resume.target);
      }
    }

    lemma ResumedAt(target: Component?)
      requires Valid() && ShownOnce(overlayStack)
      ensures var (focus, restore) := Reached(overlayStack, target, Inactive);
          Due(overlayStack, focus, restore) == target
    {
      if target != null && FirstVisible(overlayStack, target) != null {
        VisibleIsNotHidden(overlayStack, target);
      }
    }

    lemma MissesAtOnce()
      requires Valid() && ShownOnce(overlayStack) && !HiddenFocus()
      ensures HiddenOverlay(overlayStack, Due(overlayStack, focusedComponent, overlayFocusRestore)) <==> MissesInput()
    {
      if !VisibleRestore().Inactive? {
        NotHidden(overlayStack, VisibleRestore().overlay);
      }
    }

    lemma WhereInputGoes()
      requires Valid()
      ensures ShownOnce(overlayStack) && (HiddenFocus() ==> IsTopmost(null)) ==>
                (HiddenOverlay(overlayStack, InputTarget()) <==> MissesInput())
      ensures HiddenFocus() && VisibleRestore().Inactive? ==>
                InputTarget() == FirstIn(overlayStack, focusedComponent).preFocus
    {
      if !HiddenFocus() {
        if ShownOnce(overlayStack) { MissesAtOnce(); }
      } else {
        if ShownOnce(overlayStack) && IsTopmost(null) { MissesAsDecided(); }
        if VisibleRestore().Inactive? {
          InactiveGoesBack(FirstIn(overlayStack, focusedComponent).preFocus);
        }
      }
    }

    /** With no restore in the way the focus goes back to what had it before. */
    lemma InactiveGoesBack(before: Component?)
      requires VisibleRestore().Inactive?
      ensures var (focus, restore) := Decided(before, false); Due(overlayStack, focus, restore) == before
    {
    }

    /** The component that has the focus keeps an overlay from getting it back. */
    ghost predicate RestoreWaits()
      reads this
    {
      overlayFocusRestore.Blocked? && overlayFocusRestore.blockedBy == focusedComponent
    }

    lemma FrontIsOverlay()
      requires FrontHasFocus() && !IsOverlay(overlayStack, focusedComponent)
      ensures forall e <- overlayStack :: !Capturing(e)
    {
    }

    /** When no overlay has the focus, a restore that is due gives it back. */
    method RestoreDueFocus()
      requires Valid()
      modifies this`focusedComponent, this`overlayFocusRestore, known
      ensures Valid() && focusedComponent == old(Due(overlayStack, focusedComponent, overlayFocusRestore))
      ensures old(RestoreWaits()) ==> overlayFocusRestore == old(overlayFocusRestore)
      ensures old(FrontHasFocus()) ==> FrontHasFocus()
    {
      var focusIsOverlay := focusedComponent != null && FirstIn(overlayStack, focusedComponent) != null;
      if !focusIsOverlay {
        if FrontHasFocus() {
          FrontIsOverlay();
        }
        GiveBack(VisibleRestore());
      }
    }

    method GiveBack(restoreState: Restore)
      requires Valid() && restoreState == VisibleRestore() && !IsOverlay(overlayStack, focusedComponent)
      modifies this`focusedComponent, this`overlayFocusRestore, known
      ensures Valid() && focusedComponent == old(Due(overlayStack, focusedComponent, overlayFocusRestore))
      ensures old(RestoreWaits()) ==> overlayFocusRestore == old(overlayFocusRestore)
    {
      if restoreState.Eligible? {
        SetFocus(restoreState.overlay.component);
      } else if restoreState.Blocked? && restoreState.blockedBy != focusedComponent {
        if restoreState.resume.RestoreOverlay? {
          SetFocus(restoreState.overlay.component);
        } else {
          overlayFocusRestore := Inactive;
          SetFocus(restoreState.resume.target);
        }
      }
    }

    method SettleFocus()
      requires Valid()
      modifies this`focusedComponent, this`overlayFocusRestore, known
      ensures Valid() && (old(HiddenFocus()) ==> FrontHasFocus())
      ensures old(HiddenFocus() ==> IsTopmost(null)) ==> focusedComponent == old(InputTarget())
      ensures old(ShownOnce(overlayStack) && HiddenFocus() && !IsTopmost(null)) ==> !HiddenFocus()
      ensures old(!HiddenFocus() && RestoreWaits()) ==> overlayFocusRestore == old(overlayFocusRestore)
    {
      LeaveHiddenOverlay();
      RestoreDueFocus();
    }

    /** Input first settles the focus; the component that then has it receives the input. It is an overlay
        that is not visible exactly when the state beforehand says so. */
    method HandleInput() returns (receiver: Component?)
      requires Valid()
      modifies this`focusedComponent, this`overlayFocusRestore, known
      ensures Valid() && receiver == focusedComponent
      ensures old(HiddenFocus()) ==> FrontHasFocus()
      ensures old(ShownOnce(overlayStack)) ==> (HiddenFocus() <==> old(MissesInput()))
      ensures old(HiddenFocus() ==> IsTopmost(null)) ==> receiver == old(InputTarget())
      ensures old(HiddenFocus() && IsTopmost(null) && VisibleRestore().Inactive?) ==>
                receiver == old(FirstIn(overlayStack, focusedComponent).preFocus)
                && (HiddenFocus() <==>
                    old(HiddenOverlay(overlayStack, FirstIn(overlayStack, focusedComponent).preFocus)))
      ensures old(!HiddenFocus() && RestoreWaits()) ==> overlayFocusRestore == old(overlayFocusRestore)
    {
      WhereInputGoes();
      SettleFocus();
      receiver := focusedComponent;
    }

    // ---- runs ----

    /** The overlay has been left for one of the `plain` components, which are mounted and never overlays,
        and gets the focus back from it. */
    ghost predicate Waits(w: Aside, handles: seq<Entry>)
      reads this, overlayStack, entries
    {
      && w.overlay in overlayStack && w.overlay.Visible()
      && w.handle < |handles| && (forall h :: 0 <= h < |handles| ==> (handles[h] == w.overlay <==> h == w.handle))
      && w.plain <= mounted && w.plain <= known && (forall e <- entries :: e.component !in w.plain)
      && focusedComponent in w.plain && overlayFocusRestore == Blocked(w.overlay, focusedComponent, RestoreOverlay)
    }

    lemma PlainIsNoOverlay(plain: set<Component>, c: Component)
      requires Valid() && c in plain && forall e <- entries :: e.component !in plain
      ensures !IsOverlay(overlayStack, c) && FirstVisible(overlayStack, c) == null
    {
    }

    lemma PlainTakesOver(w: Aside, handles: seq<Entry>, c: Component)
      requires Valid() && Waits(w, handles) && c in w.plain
      ensures Decided(c, true) == (c, Blocked(w.overlay, c, RestoreOverlay))
    {
      PlainIsNoOverlay(w.plain, c);
      PlainIsNoOverlay(w.plain, focusedComponent);
    }

    /** One operation. An overlay that waits for the focus goes on waiting if the operation leaves it alone. */
    method Perform(action: Action, handles: seq<Entry>, ghost waiting: Option<Aside>) returns (newHandles: seq<Entry>)
      requires Valid() && Mentioned(action) <= known && forall e <- handles :: e in entries
      requires waiting.Some? ==> Waits(waiting.value, handles) && LeavesAlone(action, waiting.value)
      modifies this, known, entries
      ensures Valid() && known == old(known) && old(entries) <= entries
      ensures forall e <- entries :: e in old(entries) || fresh(e)
      ensures forall e <- newHandles :: e in entries
      ensures Shown(action, handles, newHandles) && OnlyThese(overlayStack, old(overlayStack) + newHandles)
      ensures waiting.Some? ==> Waits(waiting.value, newHandles)
    {
      newHandles := handles;
      if waiting.Some? {
        PlainIsNoOverlay(waiting.value.plain, focusedComponent);
      }
      match action
      case FocusOn(c) =>
        if waiting.Some? {
          PlainTakesOver(waiting.value, handles, c);
        }
        SetFocus(c);
      case Show(c, nonCapturing, admitted) =>
        var entry := ShowOverlay(c, nonCapturing, admitted);
        newHandles := handles + [entry];
      case HideTop => HideOverlay();
      case HideHandle(h) => PerformOn(action, handles, waiting);
      case SetHiddenHandle(h, hidden) => PerformOn(action, handles, waiting);
      case FocusHandle(h) => PerformOn(action, handles, waiting);
      case UnfocusHandle(h, options) => PerformOn(action, handles, waiting);
      case Input => var _ := HandleInput();
      case Admit(h, admitted) => if h < |handles| { handles[h].admitted := admitted; }
      case Mount(components) => mounted := components;
    }

    method PerformOn(action: Action, handles: seq<Entry>, ghost waiting: Option<Aside>)
      requires Valid() && Mentioned(action) <= known && forall e <- handles :: e in entries
      requires waiting.Some? ==> Waits(waiting.value, handles) && LeavesAlone(action, waiting.value)
      requires action.HideHandle? || action.SetHiddenHandle? || action.FocusHandle? || action.UnfocusHandle?
      modifies this, known, entries
      ensures Valid() && known == old(known) && entries == old(entries)
      ensures OnlyThese(overlayStack, old(overlayStack))
      ensures waiting.Some? ==> Waits(waiting.value, handles)
    {
      if action.handle >= |handles| {
        return;
      }
      if waiting.Some? {
        PlainIsNoOverlay(waiting.value.plain, focusedComponent);
      }
      match action
      case HideHandle(h) => Hide(handles[h]);
      case SetHiddenHandle(h, hidden) => SetHidden(handles[h], hidden);
      case FocusHandle(h) => FocusOverlay(handles[h]);
      case UnfocusHandle(h, options) => ghost var _ := Unfocus(handles[h], options);
      case _ =>
    }

    /** Over every sequence of operations the flags agree with the focus, and a restore that waits names
        an overlay on the stack. Every overlay shown has its handle, and only such overlays come onto the
        stack. */
    method Run(actions: seq<Action>) returns (handles: seq<Entry>)
      requires Valid() && forall a <- actions :: Mentioned(a) <= known
      modifies this, known, entries
      ensures Valid() && known == old(known)
      ensures old(entries) <= entries && forall e <- entries :: e in old(entries) || fresh(e)
      ensures Components(handles) == ShownIn(actions) && OnlyThese(overlayStack, old(overlayStack) + handles)
    {
      handles := [];
      for i := 0 to |actions|
        invariant Valid() && known == old(known) && old(entries) <= entries
        invariant forall e <- entries :: e in old(entries) || fresh(e)
        invariant forall e <- handles :: e in entries
        invariant Components(handles) == ShownIn(actions[..i])
        invariant OnlyThese(overlayStack, old(overlayStack) + handles)
      {
        ghost var before := handles;
        assert actions[..i + 1][..i] == actions[..i];
        handles := Perform(actions[i], handles, None);
        ShownNext(actions[i], before, handles);
      }
      assert actions[..|actions|] == actions;
    }

    /** An overlay is left for a component off its focus chain, any operations follow that leave it alone,
        and the focus is given up: the overlay has it again. */
    method FocusComesBack(w: Aside, away: Component, actions: seq<Action>, handles: seq<Entry>)
      requires Valid() && (forall a <- actions :: Mentioned(a) <= known && LeavesAlone(a, w))
      requires forall e <- handles :: e in entries
      requires w.overlay in overlayStack && w.overlay.Visible()
      requires focusedComponent == w.overlay.component && overlayFocusRestore == Eligible(w.overlay)
      requires FirstVisible(overlayStack, w.overlay.component) == w.overlay
      requires w.handle < |handles| && forall h :: 0 <= h < |handles| ==> (handles[h] == w.overlay <==> h == w.handle)
      requires away in w.plain && w.plain <= mounted && w.plain <= known
          && forall e <- entries :: e.component !in w.plain
      requires !Reaches(overlayStack, w.overlay.preFocus, away)
      modifies this, known, entries
      ensures Valid() && focusedComponent == w.overlay.component && EligibleFor(w.overlay.component)
    {
      PlainIsNoOverlay(w.plain, away);
      LeavingBlocks(away);
      SetFocus(away);
      var current := handles;
      for i := 0 to |actions|
        invariant Valid() && known == old(known) && Waits(w, current)
        invariant forall e <- entries :: e in old(entries) || fresh(e)
        invariant forall e <- current :: e in entries
      {
        current := Perform(actions[i], current, Some(w));
      }
      BlockedResumes(true);
      SetFocus(null);
    }
  }

  predicate OnlyThese(stack: seq<Entry>, entries: seq<Entry>) { forall e <- stack :: e in entries }

  /** Showing an overlay gives a handle for it, and nothing else does. */
  predicate Shown(action: Action, handles: seq<Entry>, newHandles: seq<Entry>) {
    if action.Show? then
      |newHandles| == |handles| + 1 && newHandles[..|handles|] == handles
      && newHandles[|handles|].component == action.component
    else newHandles == handles
  }

  function Components(handles: seq<Entry>): seq<Component> {
    if handles == [] then [] else Components(handles[..|handles| - 1]) + [handles[|handles| - 1].component]
  }

  function ShownIn(actions: seq<Action>): seq<Component> {
    if actions == [] then []
    else
      var front, last := ShownIn(actions[..|actions| - 1]), actions[|actions| - 1];
      if last.Show? then front + [last.component] else front
  }

  lemma ShownNext(action: Action, handles: seq<Entry>, newHandles: seq<Entry>)
    requires Shown(action, handles, newHandles)
    ensures Components(newHandles)
         == if action.Show? then Components(handles) + [action.component] else Components(handles)
  {
  }

  /** An overlay that waits for the focus: its handle, and the components that may have the focus meanwhile. */
  datatype Aside = Aside(overlay: Entry, handle: nat, plain: set<Component>)

  /** The operation concerns neither the overlay that waits nor a visible overlay that would take the focus. */
  predicate LeavesAlone(action: Action, w: Aside) {
    match action
    case FocusOn(c) => c in w.plain
    case Show(c, nonCapturing, admitted) => c !in w.plain && (nonCapturing || !admitted)
    case HideTop => false
    case HideHandle(h) => h != w.handle
    case SetHiddenHandle(h, hidden) => h != w.handle && hidden
    case FocusHandle(_) => false
    case UnfocusHandle(h, _) => h != w.handle
    case Input => true
    case Admit(h, _) => h != w.handle
    case Mount(components) => w.plain <= components
  }

  /** Two overlays shown one over the other have become invisible. */
  method TwoInvisible(a: Component, b: Component) returns (m: Manager, first: Entry, second: Entry)
    requires a != b && !a.focused && !b.focused
    modifies a, b
    ensures fresh(m) && m.Valid() && m.overlayStack == [first, second] && m.known == {a, b}
    ensures first.component == a && second.component == b && !first.Visible() && !second.Visible()
    ensures m.focusedComponent == b && second.preFocus == a
  {
    m := new Manager({a, b});
    first := m.ShowOverlay(a, false, true);
    second := m.ShowOverlay(b, false, true);
    first.admitted, second.admitted := false, false;
    assert m.overlayStack == [first, second];
  }

  /** The next input goes to the first of them. */
  method InvisibleOverlayGetsInput(a: Component, b: Component) returns (m: Manager, receiver: Component?)
    requires a != b && !a.focused && !b.focused
    modifies a, b
    ensures fresh(m) && receiver == a && m.HiddenFocus()
  {
    var first, second;
    m, first, second := TwoInvisible(a, b);
    assert m.VisibleRestore().Inactive?;
    receiver := m.HandleInput();
  }

  /** A visible overlay has the focus and an invisible one is on the stack. */
  method ShowOverInvisible(a: Component, b: Component, c: Component)
    returns (m: Manager, invisible: Entry, shown: Entry)
    requires a != b && b != c && a != c && !a.focused && !b.focused && !c.focused
    modifies a, b, c
    ensures fresh(m) && m.Valid() && m.overlayStack == [invisible, shown] && m.known == {a, b, c}
    ensures invisible.component == c && !invisible.Visible() && invisible.preFocus == null && invisible.nonCapturing
    ensures shown.component == a && shown.Visible() && shown.preFocus == null && shown.nonCapturing
    ensures m.focusedComponent == a && m.overlayFocusRestore == Eligible(shown)
  {
    m := new Manager({a, b, c});
    invisible := m.ShowOverlay(c, true, false);
    shown := m.ShowOverlay(a, true, true);
    assert m.overlayStack == [invisible, shown];
    m.FocusOverlay(shown);
  }

  /** The visible overlay has been left for `b` and told to hand the focus to the invisible one. */
  method LeaveForInvisible(a: Component, b: Component, c: Component)
    returns (m: Manager, invisible: Entry, shown: Entry)
    requires a != b && b != c && a != c && !a.focused && !b.focused && !c.focused
    modifies a, b, c
    ensures fresh(m) && m.Valid() && m.overlayStack == [invisible, shown] && m.known == {a, b, c}
    ensures invisible.component == c && !invisible.Visible() && invisible.preFocus == null && invisible.nonCapturing
    ensures shown.component == a && shown.Visible() && shown.nonCapturing
    ensures m.focusedComponent == b && m.overlayFocusRestore == Blocked(shown, b, FocusTarget(c))
  {
    m, invisible, shown := ShowOverInvisible(a, b, c);
    forall k: nat ensures Walk(m.overlayStack, shown.preFocus, k) != b {
      WalkStays(m.overlayStack, shown.preFocus, k, {});
    }
    m.LeavingBlocks(b);
    m.SetFocus(b);
    ghost var _ := m.Unfocus(shown, Some(c));
  }

  /** Its restore resumes at the invisible overlay: the next input goes there. */
  method ResumedInvisibleOverlayGetsInput(a: Component, b: Component, c: Component)
    returns (m: Manager, receiver: Component?)
    requires a != b && b != c && a != c && !a.focused && !b.focused && !c.focused
    modifies a, b, c
    ensures fresh(m) && receiver == c && m.HiddenFocus()
  {
    var invisible, shown;
    m, invisible, shown := LeaveForInvisible(a, b, c);
    m.OverlayIsGranted(c, true);
    m.SetFocus(c);
    receiver := m.HandleInput();
  }

  /** One step of the world: an operation of the UI or of a handle, or a change of the environment. */
  datatype Action =
    | FocusOn(target: Component?)
    | Show(component: Component, nonCapturing: bool, admitted: bool)
    | HideTop
    | HideHandle(handle: nat)
    | SetHiddenHandle(handle: nat, hidden: bool)
    | FocusHandle(handle: nat)
    | UnfocusHandle(handle: nat, options: Option<Component?>)
    | Input
    | Admit(handle: nat, admitted: bool)
    | Mount(components: set<Component>)

  ghost function Mentioned(action: Action): set<Component> {
    match action
    case FocusOn(c) => (if c == null then {} else {c})
    case Show(c, _, _) => {c}
    case UnfocusHandle(_, Some(c)) => (if c == null then {} else {c})
    case _ => {}
  }
}
