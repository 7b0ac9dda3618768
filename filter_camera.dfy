/**
 * `VSInteractorStyleFilterCamera`: a trackball camera style that also lets
 * the user grab a filter with a double click and translate, rotate or scale it
 * with the mouse after choosing the action with a key.
 *
 * Picking, the view widget's prop-to-filter lookup and the transform
 * arithmetic are outside the model: what the picker and the view widget
 * answer are parameters, and the calls into the trackball base class, the
 * view widget and the transform helpers are recorded, in order, in `effects`.
 */
module FilterCamera {
  import opened Wrappers

  type FilterId = nat
  type PropId = nat
  type ViewId = nat

  datatype ActionType = NoAction | Translate | Rotate | Scale

  /** A call the style makes outside its own state. */
  datatype Effect =
    | TrackballLeftDown | TrackballLeftUp | TrackballRightDown | TrackballMove
    | SelectFilter(filter: Option<FilterId>)
    | BeginTranslation | BeginRotation | BeginScaling
    | CancelTranslation | CancelRotation | CancelScaling
    | TranslateFilter | RotateFilter | ScaleFilter

  /** The helper `setActionType` starts for each action. */
  function BeginEffects(t: ActionType): (r: seq<Effect>)
    ensures r == [] <==> t == NoAction
  {
    match t
    case NoAction => []
    case Translate => [BeginTranslation]
    case Rotate => [BeginRotation]
    case Scale => [BeginScaling]
  }

  /** The helper `cancelAction` runs for each action. */
  function CancelEffects(t: ActionType): (r: seq<Effect>)
    ensures r == [] <==> t == NoAction
  {
    match t
    case NoAction => []
    case Translate => [CancelTranslation]
    case Rotate => [CancelRotation]
    case Scale => [CancelScaling]
  }

  /** The drag a mouse move performs for each action. */
  function DragEffect(t: ActionType): (r: Effect)
    requires t != NoAction
    ensures r in {TranslateFilter, RotateFilter, ScaleFilter}
  {
    match t
    case Translate => TranslateFilter
    case Rotate => RotateFilter
    case Scale => ScaleFilter
  }

  /** The action a key selects, if it selects one. */
  function KeyAction(key: string): (r: Option<ActionType>)
    ensures r.Some? <==> key in {"t", "r", "s"}
    ensures r.Some? ==> r.value != NoAction
  {
    if key == "t" then Some(Translate)
    else if key == "r" then Some(Rotate)
    else if key == "s" then Some(Scale)
    else None
  }

  class FilterCameraStyle {
    /** `m_MousePress`: left presses since the last mouse move. */
    var mousePress: nat
    var actionType: ActionType
    var grabbedFilter: Option<FilterId>
    var grabbedProp: Option<PropId>
    var viewWidget: Option<ViewId>
    var effects: seq<Effect>

    /** A style at rest: no press counted, no action, nothing grabbed, no view. */
    constructor ()
      ensures mousePress == 0 && actionType == NoAction && grabbedFilter.None? && grabbedProp.None?
      ensures viewWidget.None? && effects == []
    {
      mousePress, actionType, grabbedFilter, grabbedProp, viewWidget, effects := 0, NoAction, None, None, None, [];
    }

    /**
     * Left press: counts the press; from the second press on (a double click)
     * grabs the prop under the cursor and the filter the view widget owns for
     * it, and selects that filter; the first press goes to the trackball.
     */
    method OnLeftButtonDown(pickedProp: Option<PropId>, filterOfProp: Option<FilterId>)
      requires mousePress + 1 >= 2 ==> viewWidget.Some?
      modifies this`mousePress, this`grabbedFilter, this`grabbedProp, this`effects
      ensures mousePress == old(mousePress) + 1
      ensures mousePress >= 2 ==>
        grabbedProp == pickedProp && grabbedFilter == filterOfProp &&
        effects == old(effects) + [SelectFilter(filterOfProp)]
      ensures mousePress < 2 ==>
        grabbedProp == old(grabbedProp) && grabbedFilter == old(grabbedFilter) &&
        effects == old(effects) + [TrackballLeftDown]
    {
      mousePress := mousePress + 1;
      if mousePress >= 2 {
        GrabFilter(pickedProp, filterOfProp);
      } else {
        effects := effects + [TrackballLeftDown];
      }
    }

    /** `grabFilter`: the picked prop and its filter become the grabbed ones, and the filter is selected. */
    method GrabFilter(pickedProp: Option<PropId>, filterOfProp: Option<FilterId>)
      requires viewWidget.Some?
      modifies this`grabbedFilter, this`grabbedProp, this`effects
      ensures grabbedProp == pickedProp && grabbedFilter == filterOfProp
      ensures effects == old(effects) + [SelectFilter(filterOfProp)]
    {
      grabbedProp, grabbedFilter, effects := pickedProp, filterOfProp, effects + [SelectFilter(filterOfProp)];
    }

    /** Left release: the trackball's release, then the grabbed filter is let go. */
    method OnLeftButtonUp()
      modifies this`actionType, this`grabbedFilter, this`grabbedProp, this`effects
      ensures actionType == NoAction && grabbedFilter.None? && grabbedProp.None?
      ensures effects == old(effects) + [TrackballLeftUp]
    {
      effects := effects + [TrackballLeftUp];
      ReleaseFilter();
    }

    /** Right press: the trackball's press, then any drag in progress is cancelled. */
    method OnRightButtonDown()
      modifies this`actionType, this`effects
      ensures actionType == NoAction
      ensures effects == old(effects) + [TrackballRightDown] + CancelEffects(old(actionType))
    {
      effects := effects + [TrackballRightDown];
      CancelAction();
    }

    /**
     * Mouse move: the press count restarts; a grabbed filter with an action
     * chosen is dragged, otherwise the camera moves.
     */
    method OnMouseMove()
      modifies this`mousePress, this`effects
      ensures mousePress == 0
      ensures grabbedFilter.Some? && actionType != NoAction ==> effects == old(effects) + [DragEffect(actionType)]
      ensures !(grabbedFilter.Some? && actionType != NoAction) ==> effects == old(effects) + [TrackballMove]
    {
      mousePress := 0;
      if grabbedFilter.Some? && actionType != NoAction {
        effects := effects + [DragEffect(actionType)];
      } else {
        effects := effects + [TrackballMove];
      }
    }

    /** Key press: "t", "r" and "s" choose an action, "Escape" cancels, any other key does nothing. */
    method OnKeyDown(key: string)
      modifies this`actionType, this`effects
      ensures KeyAction(key).Some? ==>
        actionType == KeyAction(key).value && effects == old(effects) + BeginEffects(actionType)
      ensures key == "Escape" ==> actionType == NoAction && effects == old(effects) + CancelEffects(old(actionType))
      ensures KeyAction(key).None? && key != "Escape" ==> actionType == old(actionType) && effects == old(effects)
    {
      var chosen := KeyAction(key);
      if chosen.Some? {
        SetActionType(chosen.value);
      } else if key == "Escape" {
        CancelAction();
      }
    }

    /** `setViewWidget`: the grabbed filter is let go before the view changes. */
    method SetViewWidget(view: Option<ViewId>)
      modifies this`actionType, this`grabbedFilter, this`grabbedProp, this`viewWidget
      ensures viewWidget == view && actionType == NoAction && grabbedFilter.None? && grabbedProp.None?
    {
      ReleaseFilter();
      viewWidget := view;
    }

    /** `setActionType`: ends the current action if there is one, then starts the new one. */
    method SetActionType(t: ActionType)
      modifies this`actionType, this`effects
      ensures actionType == t && effects == old(effects) + BeginEffects(t)
    {
      if actionType != NoAction {
        EndAction();
      }
      actionType := t;
      effects := effects + BeginEffects(t);
    }

    /** `endAction`: no action is in progress any more; the filter keeps where it was dragged to. */
    method EndAction()
      modifies this`actionType
      ensures actionType == NoAction
    {
      actionType := NoAction;
    }

    /** `cancelAction`: undoes the current action's drag, whatever it is, and ends it. */
    method CancelAction()
      modifies this`actionType, this`effects
      ensures actionType == NoAction && effects == old(effects) + CancelEffects(old(actionType))
    {
      effects := effects + CancelEffects(actionType);
      actionType := NoAction;
    }

    /** `releaseFilter`: ends the action and lets go of the grabbed filter and prop. */
    method ReleaseFilter()
      modifies this`actionType, this`grabbedFilter, this`grabbedProp
      ensures actionType == NoAction && grabbedFilter.None? && grabbedProp.None?
    {
      EndAction();
      grabbedFilter, grabbedProp := None, None;
    }
  }

  /**
   * Two left presses with no move between them grab the picked filter, a key
   * chooses the action, and the next move drags the filter with it; releasing
   * the button lets go, so the move after that turns the camera again.
   */
  method DoubleClickDrag(view: ViewId, prop: PropId, filter: FilterId, key: string)
    returns (s: FilterCameraStyle)
    requires KeyAction(key).Some?
    ensures s.grabbedFilter.None? && s.actionType == NoAction && s.mousePress == 0
    ensures s.effects == [TrackballLeftDown, SelectFilter(Some(filter))] + BeginEffects(KeyAction(key).value) +
      [DragEffect(KeyAction(key).value), TrackballLeftUp, TrackballMove]
  {
    s := new FilterCameraStyle();
    s.SetViewWidget(Some(view));
    s.OnLeftButtonDown(Some(prop), Some(filter));
    s.OnLeftButtonDown(Some(prop), Some(filter));
    s.OnKeyDown(key);
    s.OnMouseMove();
    s.OnLeftButtonUp();
    s.OnMouseMove();
  }

  /** A move between two left presses restarts the count: neither press grabs anything. */
  method MoveBetweenPressesDoesNotGrab(view: ViewId, prop: PropId, filter: FilterId)
    returns (s: FilterCameraStyle)
    ensures s.grabbedFilter.None? && s.mousePress == 1
    ensures s.effects == [TrackballLeftDown, TrackballMove, TrackballLeftDown]
  {
    s := new FilterCameraStyle();
    s.SetViewWidget(Some(view));
    s.OnLeftButtonDown(Some(prop), Some(filter));
    s.OnMouseMove();
    s.OnLeftButtonDown(Some(prop), Some(filter));
  }
}
