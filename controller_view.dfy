/**
  A controller-view node of the artifact graph, as a value: its identity, its labels,
  and the pure specification `Construct` of what building one does, including the
  registration in the "views referring to screen" reverse index.
 */
module ControllerView {
  import opened Wrappers
  import opened Identity
  import opened ReverseIndex

  /** Key of the view's renderer type in the view-info map (`ConfigXMLReader.VIEW_TYPE`). */
  const ViewTypeKey: string := "type"
  /** Key of the view's page pointer in the view-info map (`ConfigXMLReader.VIEW_PAGE`). */
  const ViewPageKey: string := "page"
  /** The renderer type of views that call a screen. */
  const ScreenViewType: string := "screen"
  /** `ArtifactInfoFactory.ControllerViewInfoTypeId`. */
  const ControllerViewInfoTypeId: string := "controllerView"

  /** The exceptions the construction can end with. */
  datatype Failure =
    | GeneralException(message: string)
    | StringIndexOutOfBounds(index: int)
    | RuntimeException(message: string)

  /** A screen node, as far as a controller view uses it: by its unique id. */
  datatype ScreenInfo = ScreenInfo(uniqueId: string)

  /** What the factory's screen lookup can do: return a screen, return null, or throw. */
  datatype ScreenLookup =
    | ScreenFound(screen: ScreenInfo)
    | ScreenNull
    | ScreenThrows(exception: Failure)

  /** A reference a Java `equals` can receive: null, a controller view, or an artifact of another kind. */
  datatype ArtifactRef =
    | NullRef
    | ControllerViewRef(view: ControllerViewArtifactInfo)
    | OtherArtifactRef(typeId: string, uniqueId: string)

  /** The fields of a constructed controller view. They do not change after construction. */
  datatype ControllerViewArtifactInfo = ControllerViewArtifactInfo(
    controllerXmlUrl: Url,
    viewUri: string,
    viewInfoMap: map<string, string>,
    screenCalledByThisView: Option<ScreenInfo>)
  {
    /** The identifying fields, which are what a reverse index stores. */
    function Id(): ViewId {
      ViewId(controllerXmlUrl, viewUri)
    }

    function GetUniqueId(): string {
      UniqueId(controllerXmlUrl, viewUri)
    }

    /** The display name is the unique id itself. */
    function GetDisplayName(): (r: string)
      ensures r == GetUniqueId()
      ensures r == controllerXmlUrl.externalForm + "#" + viewUri
    {
      GetUniqueId()
    }

    function GetDisplayType(): (r: string)
      ensures r == "Controller View"
    {
      "Controller View"
    }

    function GetType(): (r: string)
      ensures r == ControllerViewInfoTypeId
    {
      ControllerViewInfoTypeId
    }

    /**
      Identity equality: only the URL and the view uri are compared, never the view-info
      map or the screen edge; null and artifacts of other kinds are never equal.
     */
    function Equals(obj: ArtifactRef): (b: bool)
      ensures b <==> obj.ControllerViewRef? && obj.view.Id() == Id()
      ensures b ==> obj.view.GetUniqueId() == GetUniqueId()
    {
      match obj
      case ControllerViewRef(that) =>
        controllerXmlUrl == that.controllerXmlUrl && viewUri == that.viewUri
      case _ => false
    }
  }

  /** Equality is an equivalence relation on controller views. */
  lemma EqualsIsEquivalence(a: ControllerViewArtifactInfo, b: ControllerViewArtifactInfo, c: ControllerViewArtifactInfo)
    ensures a.Equals(ControllerViewRef(a))
    ensures a.Equals(ControllerViewRef(b)) <==> b.Equals(ControllerViewRef(a))
    ensures a.Equals(ControllerViewRef(b)) && b.Equals(ControllerViewRef(c)) ==> a.Equals(ControllerViewRef(c))
  {
  }

  /** Equal unique ids mean equal views whenever neither view uri holds a separator. */
  lemma SameUniqueIdEquals(a: ControllerViewArtifactInfo, b: ControllerViewArtifactInfo)
    requires Separator !in a.viewUri && Separator !in b.viewUri
    ensures a.GetUniqueId() == b.GetUniqueId() <==> a.Equals(ControllerViewRef(b))
  {
    if a.GetUniqueId() == b.GetUniqueId() {
      UniqueIdInjective(a.controllerXmlUrl, a.viewUri, b.controllerXmlUrl, b.viewUri);
    }
  }

  /**
    The screen pointer of a view, when the view renders a screen: `Some(page)` exactly
    when the type is "screen" and the page is present and non-empty.
   */
  function ScreenPointer(viewInfoMap: map<string, string>): (r: Option<string>)
    ensures r.Some? ==> ViewTypeKey in viewInfoMap && viewInfoMap[ViewTypeKey] == ScreenViewType
    ensures r.Some? ==> ViewPageKey in viewInfoMap && r.value == viewInfoMap[ViewPageKey] && r.value != ""
    ensures r.None? ==> ViewTypeKey !in viewInfoMap || viewInfoMap[ViewTypeKey] != ScreenViewType
                        || ViewPageKey !in viewInfoMap || viewInfoMap[ViewPageKey] == ""
  {
    if ViewTypeKey in viewInfoMap && viewInfoMap[ViewTypeKey] == ScreenViewType then
      if ViewPageKey in viewInfoMap && |viewInfoMap[ViewPageKey]| > 0 then Some(viewInfoMap[ViewPageKey])
      else None
    else None
  }

  /**
    Splits a page pointer at its FIRST separator into (location, name). Without a
    separator the `substring(0, -1)` of the source throws out of bounds at index -1.
   */
  function SplitScreenPointer(pointer: string): (r: Result<(string, string), Failure>)
    ensures r.Failure? <==> Separator !in pointer
    ensures r.Failure? ==> r.error == StringIndexOutOfBounds(-1)
    ensures r.Success? ==> pointer == r.value.0 + [Separator] + r.value.1
    ensures r.Success? ==> Separator !in r.value.0
  {
    var poundIndex := IndexOf(pointer, Separator);
    if poundIndex < 0 then Failure(StringIndexOutOfBounds(poundIndex))
    else Success((pointer[..poundIndex], pointer[poundIndex + 1..]))
  }

  /** Splitting recovers location and name whenever the location holds no separator. */
  lemma SplitScreenPointerRoundTrip(location: string, name: string)
    requires Separator !in location
    ensures SplitScreenPointer(location + [Separator] + name) == Success((location, name))
  {
    var p := location + [Separator] + name;
    var i := IndexOf(p, Separator);
    assert p[|location|] == Separator;
    assert p[..|location|] == location;
    assert p[|location| + 1..] == name;
  }

  /** The message of the exception thrown when the view is not defined. */
  function NotFoundMessage(controllerXmlUrl: Url, viewUri: string): string {
    "Could not find Controller View [" + viewUri + "] at URL [" + controllerXmlUrl.externalForm + "]"
  }

  /**
    One construction: its outcome (the node or the exception that escapes), the
    exception that was logged as a warning, and the reverse index afterwards.
   */
  datatype Step = Step(
    outcome: Result<ControllerViewArtifactInfo, Failure>,
    warning: Option<Failure>,
    index: map<string, set<ViewId>>)

  /**
    The specification of building the view `(controllerXmlUrl, viewUri)`: look up its
    view-info map (missing: GeneralException); for a screen view with a page pointer,
    split the pointer, look up the screen by (name, location), and register the view
    under the screen's unique id when one is returned. A GeneralException from the
    screen lookup is logged and swallowed; any other exception escapes.
   */
  function Construct(
    viewInfoMaps: (Url, string) -> Option<map<string, string>>,
    screenLookup: (string, string) -> ScreenLookup,
    index: map<string, set<ViewId>>,
    controllerXmlUrl: Url,
    viewUri: string): Step
  {
    match viewInfoMaps(controllerXmlUrl, viewUri)
    case None =>
      Step(Failure(GeneralException(NotFoundMessage(controllerXmlUrl, viewUri))), None, index)
    case Some(m) =>
      var unresolved := ControllerViewArtifactInfo(controllerXmlUrl, viewUri, m, None);
      match ScreenPointer(m)
      case None => Step(Success(unresolved), None, index)
      case Some(pointer) =>
        match SplitScreenPointer(pointer)
        case Failure(e) => Step(Failure(e), None, index)
        case Success((location, name)) =>
          match screenLookup(name, location)
          case ScreenFound(s) =>
            Step(Success(unresolved.(screenCalledByThisView := Some(s))), None,
                 AddToSetInMap(index, s.uniqueId, ViewId(controllerXmlUrl, viewUri)))
          case ScreenNull => Step(Success(unresolved), None, index)
          case ScreenThrows(e) =>
            if e.GeneralException? then Step(Success(unresolved), Some(e), index)
            else Step(Failure(e), None, index)
  }

  /**
    The forward edge of a view in a configuration snapshot: the unique id of the screen
    its construction resolves, if any.
   */
  ghost function ScreenEdge(
    viewInfoMaps: (Url, string) -> Option<map<string, string>>,
    screenLookup: (string, string) -> ScreenLookup,
    v: ViewId): Option<string>
  {
    match Construct(viewInfoMaps, screenLookup, map[], v.controllerXmlUrl, v.viewUri).outcome
    case Success(n) =>
      if n.screenCalledByThisView.Some? then Some(n.screenCalledByThisView.value.uniqueId) else None
    case Failure(_) => None
  }

  /** Every entry of the reverse index is backed by the forward edge of the view it names. */
  ghost predicate IndexSound(
    viewInfoMaps: (Url, string) -> Option<map<string, string>>,
    screenLookup: (string, string) -> ScreenLookup,
    index: map<string, set<ViewId>>)
  {
    forall key, v :: key in index && v in index[key] ==> ScreenEdge(viewInfoMaps, screenLookup, v) == Some(key)
  }

  /** The node and the warning do not depend on what the reverse index held before. */
  lemma ConstructOutcomeIgnoresIndex(
    viewInfoMaps: (Url, string) -> Option<map<string, string>>,
    screenLookup: (string, string) -> ScreenLookup,
    i1: map<string, set<ViewId>>, i2: map<string, set<ViewId>>,
    controllerXmlUrl: Url, viewUri: string)
    ensures Construct(viewInfoMaps, screenLookup, i1, controllerXmlUrl, viewUri).outcome
         == Construct(viewInfoMaps, screenLookup, i2, controllerXmlUrl, viewUri).outcome
    ensures Construct(viewInfoMaps, screenLookup, i1, controllerXmlUrl, viewUri).warning
         == Construct(viewInfoMaps, screenLookup, i2, controllerXmlUrl, viewUri).warning
  {
  }

  /**
    The one change construction makes to the reverse index: the view is added under
    the id of the screen it resolved, and only then; otherwise the index is unchanged.
   */
  lemma ConstructIndexEffect(
    viewInfoMaps: (Url, string) -> Option<map<string, string>>,
    screenLookup: (string, string) -> ScreenLookup,
    index: map<string, set<ViewId>>,
    controllerXmlUrl: Url, viewUri: string)
    ensures var s := Construct(viewInfoMaps, screenLookup, index, controllerXmlUrl, viewUri);
            s.index == match ScreenEdge(viewInfoMaps, screenLookup, ViewId(controllerXmlUrl, viewUri))
                       case Some(k) => AddToSetInMap(index, k, ViewId(controllerXmlUrl, viewUri))
                       case None => index
  {
    ConstructOutcomeIgnoresIndex(viewInfoMaps, screenLookup, index, map[], controllerXmlUrl, viewUri);
  }

  /** A missing view-info map is the one way construction fails with a GeneralException, and it registers nothing. */
  lemma ConstructNotFound(
    viewInfoMaps: (Url, string) -> Option<map<string, string>>,
    screenLookup: (string, string) -> ScreenLookup,
    index: map<string, set<ViewId>>,
    controllerXmlUrl: Url, viewUri: string)
    ensures var s := Construct(viewInfoMaps, screenLookup, index, controllerXmlUrl, viewUri);
            viewInfoMaps(controllerXmlUrl, viewUri).None? <==> s.outcome.Failure? && s.outcome.error.GeneralException?
    ensures var s := Construct(viewInfoMaps, screenLookup, index, controllerXmlUrl, viewUri);
            viewInfoMaps(controllerXmlUrl, viewUri).None? ==>
              s.outcome == Failure(GeneralException(NotFoundMessage(controllerXmlUrl, viewUri)))
              && s.index == index && s.warning.None?
  {
  }

  /** Whatever exception escapes, the reverse index is left as it was. */
  lemma ConstructFailureRegistersNothing(
    viewInfoMaps: (Url, string) -> Option<map<string, string>>,
    screenLookup: (string, string) -> ScreenLookup,
    index: map<string, set<ViewId>>,
    controllerXmlUrl: Url, viewUri: string)
    ensures var s := Construct(viewInfoMaps, screenLookup, index, controllerXmlUrl, viewUri);
            s.outcome.Failure? ==> s.index == index && s.warning.None?
  {
  }

  /**
    Without a screen pointer (type not "screen", or page missing or empty) no screen is
    looked up: the result does not depend on the screen lookup at all, there is no
    screen edge, and the index is unchanged.
   */
  lemma ConstructWithoutScreenPointer(
    viewInfoMaps: (Url, string) -> Option<map<string, string>>,
    screenLookup: (string, string) -> ScreenLookup,
    otherLookup: (string, string) -> ScreenLookup,
    index: map<string, set<ViewId>>,
    controllerXmlUrl: Url, viewUri: string)
    requires viewInfoMaps(controllerXmlUrl, viewUri).Some?
    requires ScreenPointer(viewInfoMaps(controllerXmlUrl, viewUri).value).None?
    ensures var s := Construct(viewInfoMaps, screenLookup, index, controllerXmlUrl, viewUri);
            s == Construct(viewInfoMaps, otherLookup, index, controllerXmlUrl, viewUri)
            && s.outcome.Success? && s.outcome.value.screenCalledByThisView.None?
            && s.index == index && s.warning.None?
  {
  }

  /**
    With a screen pointer the screen is looked up by (name, location), the two halves
    of the pointer at its first separator; a pointer without a separator fails with
    the out-of-bounds exception before any lookup.
   */
  lemma ConstructScreenLookupArguments(
    viewInfoMaps: (Url, string) -> Option<map<string, string>>,
    screenLookup: (string, string) -> ScreenLookup,
    index: map<string, set<ViewId>>,
    controllerXmlUrl: Url, viewUri: string,
    location: string, name: string)
    requires viewInfoMaps(controllerXmlUrl, viewUri).Some?
    requires ScreenPointer(viewInfoMaps(controllerXmlUrl, viewUri).value) == Some(location + [Separator] + name)
    requires Separator !in location
    ensures var s := Construct(viewInfoMaps, screenLookup, index, controllerXmlUrl, viewUri);
            match screenLookup(name, location)
            case ScreenFound(sc) =>
              s.outcome.Success? && s.outcome.value.screenCalledByThisView == Some(sc) && s.warning.None?
            case ScreenNull =>
              s.outcome.Success? && s.outcome.value.screenCalledByThisView.None? && s.warning.None? && s.index == index
            case ScreenThrows(e) =>
              if e.GeneralException? then
                s.outcome.Success? && s.outcome.value.screenCalledByThisView.None? && s.warning == Some(e) && s.index == index
              else
                s.outcome == Failure(e) && s.index == index
  {
    SplitScreenPointerRoundTrip(location, name);
  }

  /** A page pointer with no separator is not tolerated: construction fails out of bounds. */
  lemma ConstructPointerWithoutSeparator(
    viewInfoMaps: (Url, string) -> Option<map<string, string>>,
    screenLookup: (string, string) -> ScreenLookup,
    index: map<string, set<ViewId>>,
    controllerXmlUrl: Url, viewUri: string)
    requires viewInfoMaps(controllerXmlUrl, viewUri).Some?
    requires var p := ScreenPointer(viewInfoMaps(controllerXmlUrl, viewUri).value); p.Some? && Separator !in p.value
    ensures var s := Construct(viewInfoMaps, screenLookup, index, controllerXmlUrl, viewUri);
            s.outcome == Failure(StringIndexOutOfBounds(-1)) && s.index == index
  {
  }

  /**
    When the screen resolves to S, the view is in the index under S's unique id, the
    set under that key only gains this view, and every other key is unchanged.
   */
  lemma ConstructRegistersView(
    viewInfoMaps: (Url, string) -> Option<map<string, string>>,
    screenLookup: (string, string) -> ScreenLookup,
    index: map<string, set<ViewId>>,
    controllerXmlUrl: Url, viewUri: string)
    ensures var s := Construct(viewInfoMaps, screenLookup, index, controllerXmlUrl, viewUri);
            s.outcome.Success? && s.outcome.value.screenCalledByThisView.Some? ==>
              var key := s.outcome.value.screenCalledByThisView.value.uniqueId;
              && key in s.index
              && ViewId(controllerXmlUrl, viewUri) in s.index[key]
              && s.index[key] == (if key in index then index[key] else {}) + {ViewId(controllerXmlUrl, viewUri)}
              && s.index.Keys == index.Keys + {key}
              && (forall k :: k in index && k != key ==> s.index[k] == index[k])
    ensures var s := Construct(viewInfoMaps, screenLookup, index, controllerXmlUrl, viewUri);
            s.outcome.Success? && s.outcome.value.screenCalledByThisView.None? ==> s.index == index
  {
  }

  /** Building the same view again adds no duplicate and yields the same node. */
  lemma ConstructIdempotent(
    viewInfoMaps: (Url, string) -> Option<map<string, string>>,
    screenLookup: (string, string) -> ScreenLookup,
    index: map<string, set<ViewId>>,
    controllerXmlUrl: Url, viewUri: string)
    ensures var s1 := Construct(viewInfoMaps, screenLookup, index, controllerXmlUrl, viewUri);
            var s2 := Construct(viewInfoMaps, screenLookup, s1.index, controllerXmlUrl, viewUri);
            s2.index == s1.index && s2.outcome == s1.outcome
  {
    var s1 := Construct(viewInfoMaps, screenLookup, index, controllerXmlUrl, viewUri);
    ConstructIndexEffect(viewInfoMaps, screenLookup, index, controllerXmlUrl, viewUri);
    ConstructIndexEffect(viewInfoMaps, screenLookup, s1.index, controllerXmlUrl, viewUri);
    ConstructOutcomeIgnoresIndex(viewInfoMaps, screenLookup, index, s1.index, controllerXmlUrl, viewUri);
    match ScreenEdge(viewInfoMaps, screenLookup, ViewId(controllerXmlUrl, viewUri))
    case Some(k) => AddToSetInMapIdempotent(index, k, ViewId(controllerXmlUrl, viewUri));
    case None =>
  }

  /**
    The reverse index stays a consequence of forward resolution: if every entry was
    backed by a forward edge before a construction, it still is afterwards.
   */
  lemma ConstructPreservesIndexSound(
    viewInfoMaps: (Url, string) -> Option<map<string, string>>,
    screenLookup: (string, string) -> ScreenLookup,
    index: map<string, set<ViewId>>,
    controllerXmlUrl: Url, viewUri: string)
    requires IndexSound(viewInfoMaps, screenLookup, index)
    ensures IndexSound(viewInfoMaps, screenLookup, Construct(viewInfoMaps, screenLookup, index, controllerXmlUrl, viewUri).index)
  {
    ConstructIndexEffect(viewInfoMaps, screenLookup, index, controllerXmlUrl, viewUri);
  }

  /**
    Building a view on an empty reverse index leaves exactly one entry, the view under
    the id of the screen it resolved, or no entry when it resolved none.
   */
  lemma ConstructOnEmptyIndex(
    viewInfoMaps: (Url, string) -> Option<map<string, string>>,
    screenLookup: (string, string) -> ScreenLookup,
    controllerXmlUrl: Url, viewUri: string)
    ensures var s := Construct(viewInfoMaps, screenLookup, map[], controllerXmlUrl, viewUri);
            s.index == if s.outcome.Success? && s.outcome.value.screenCalledByThisView.Some?
                       then map[s.outcome.value.screenCalledByThisView.value.uniqueId := {ViewId(controllerXmlUrl, viewUri)}]
                       else map[]
  {
    ConstructRegistersView(viewInfoMaps, screenLookup, map[], controllerXmlUrl, viewUri);
    ConstructFailureRegistersNothing(viewInfoMaps, screenLookup, map[], controllerXmlUrl, viewUri);
  }
}
