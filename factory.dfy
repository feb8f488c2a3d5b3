/**
  The artifact factory, as far as a controller view uses it, and the construction of a
  controller view, which reads the factory's lookups and updates its reverse index in place.
 */
module Factory {
  import opened Wrappers
  import opened Identity
  import opened ReverseIndex
  import opened ControllerView

  class ArtifactInfoFactory {
    /** The view-info maps of the configuration snapshot, by (controller file, view uri); None is null. */
    const viewInfoMaps: (Url, string) -> Option<map<string, string>>
    /** The screen lookup of the snapshot, called as (screen name, screen location). */
    const screenWidgetArtifactInfos: (string, string) -> ScreenLookup
    /** Reverse index: screen unique id to the views that call that screen. */
    var allViewInfosReferringToScreen: map<string, set<ViewId>>
    /** Reverse index: view unique id to the requests that respond with that view. */
    var allRequestInfosReferringToView: map<string, set<RequestId>>

    /** The views-referring-to-screen index holds only entries backed by forward edges. */
    ghost predicate Valid()
      reads this
    {
      IndexSound(viewInfoMaps, screenWidgetArtifactInfos, allViewInfosReferringToScreen)
    }

    constructor (
      viewInfoMaps: (Url, string) -> Option<map<string, string>>,
      screenWidgetArtifactInfos: (string, string) -> ScreenLookup,
      allRequestInfosReferringToView: map<string, set<RequestId>>)
      ensures Valid()
      ensures this.viewInfoMaps == viewInfoMaps && this.screenWidgetArtifactInfos == screenWidgetArtifactInfos
      ensures this.allRequestInfosReferringToView == allRequestInfosReferringToView
      ensures allViewInfosReferringToScreen == map[]
    {
      this.viewInfoMaps := viewInfoMaps;
      this.screenWidgetArtifactInfos := screenWidgetArtifactInfos;
      this.allViewInfosReferringToScreen := map[];
      this.allRequestInfosReferringToView := allRequestInfosReferringToView;
    }

    function GetControllerViewInfoMap(controllerXmlUrl: Url, viewUri: string): Option<map<string, string>> {
      viewInfoMaps(controllerXmlUrl, viewUri)
    }

    function GetScreenWidgetArtifactInfo(screenName: string, screenLocation: string): ScreenLookup {
      screenWidgetArtifactInfos(screenName, screenLocation)
    }
  }

  /**
    The constructor `ControllerViewArtifactInfo(controllerXmlUrl, viewUri, aif)`: the new
    node or the exception that escapes, and the GeneralException logged as a warning.
    Only the views-referring-to-screen index of the factory changes.
   */
  method NewControllerViewArtifactInfo(controllerXmlUrl: Url, viewUri: string, aif: ArtifactInfoFactory)
    returns (r: Result<ControllerViewArtifactInfo, Failure>, warning: Option<Failure>)
    requires aif.Valid()
    modifies aif`allViewInfosReferringToScreen
    ensures aif.Valid()
    ensures var s := Construct(aif.viewInfoMaps, aif.screenWidgetArtifactInfos,
                               old(aif.allViewInfosReferringToScreen), controllerXmlUrl, viewUri);
            r == s.outcome && warning == s.warning && aif.allViewInfosReferringToScreen == s.index
    ensures aif.allRequestInfosReferringToView == old(aif.allRequestInfosReferringToView)
  {
    ConstructPreservesIndexSound(aif.viewInfoMaps, aif.screenWidgetArtifactInfos,
                                 aif.allViewInfosReferringToScreen, controllerXmlUrl, viewUri);
    warning := None;
    var viewInfoMap := aif.GetControllerViewInfoMap(controllerXmlUrl, viewUri);
    if viewInfoMap.None? {
      r := Failure(GeneralException(NotFoundMessage(controllerXmlUrl, viewUri)));
      return;
    }
    var m := viewInfoMap.value;
    var screenCalledByThisView: Option<ScreenInfo> := None;
    if ViewTypeKey in m && m[ViewTypeKey] == ScreenViewType {
      if ViewPageKey in m && |m[ViewPageKey]| > 0 {
        var fullScreenName := m[ViewPageKey];
        var poundIndex := IndexOf(fullScreenName, Separator);
        if poundIndex < 0 {
          r := Failure(StringIndexOutOfBounds(poundIndex));
          return;
        }
        var lookup := aif.GetScreenWidgetArtifactInfo(fullScreenName[poundIndex + 1..], fullScreenName[..poundIndex]);
        match lookup
        case ScreenFound(screen) =>
          screenCalledByThisView := Some(screen);
          aif.allViewInfosReferringToScreen :=
            AddToSetInMap(aif.allViewInfosReferringToScreen, screen.uniqueId, ViewId(controllerXmlUrl, viewUri));
        case ScreenNull =>
        case ScreenThrows(e) =>
          if e.GeneralException? {
            warning := Some(e);
          } else {
            r := Failure(e);
            return;
          }
      }
    }
    r := Success(ControllerViewArtifactInfo(controllerXmlUrl, viewUri, m, screenCalledByThisView));
  }

  /**
    `getRequestsThatThisViewIsResponseTo`: the requests the factory recorded under the
    view's unique id, read without change; None (Java's null) when there are none.
   */
  function GetRequestsThatThisViewIsResponseTo(view: ControllerViewArtifactInfo, aif: ArtifactInfoFactory)
    : (r: Option<set<RequestId>>)
    reads aif
    ensures r.None? <==> view.GetUniqueId() !in aif.allRequestInfosReferringToView
    ensures r.Some? ==> r.value == aif.allRequestInfosReferringToView[view.GetUniqueId()]
  {
    var id := view.GetUniqueId();
    if id in aif.allRequestInfosReferringToView then Some(aif.allRequestInfosReferringToView[id]) else None
  }

  /** The requests recorded for a view depend only on its identity, not on its other fields. */
  lemma RequestsDependOnIdentityOnly(a: ControllerViewArtifactInfo, b: ControllerViewArtifactInfo, aif: ArtifactInfoFactory)
    requires a.Equals(ControllerViewRef(b))
    ensures GetRequestsThatThisViewIsResponseTo(a, aif) == GetRequestsThatThisViewIsResponseTo(b, aif)
  {
  }
}
