# Controller-view nodes of the artifact dependency graph

This project models `ControllerViewArtifactInfo`, the node of the artifact graph that
stands for one view of a controller (routing) file. It also models the parts of the
artifact factory that such a node uses.

- **Building a node.** The factory is asked for the view's attribute map. If there is
  none, construction fails with a `GeneralException`.
- **The screen edge.** A view whose type is `"screen"` and whose page is non-empty has
  its page split at the first `#` into a location and a screen name. The factory is then
  asked for that screen. A `GeneralException` from that lookup is logged and swallowed.
  Any other exception escapes.
- **The reverse index.** When the screen resolves, the view is added to the factory's
  `allViewInfosReferringToScreen` under the screen's unique id.
- **Identity.** The unique id is the URL's external form, then `#`, then the view uri.
  Equality compares exactly those two fields.

Files:

- `wrappers.dfy`: `Option` stands for Java's null, `Result` for a thrown exception.
- `identity.dfy`: URLs, view and request identities, `indexOf`, and the unique id.
- `reverse_index.dfy`: `UtilMisc.addToSetInMap`.
- `controller_view.dfy`: the node datatype with its getters and `equals`. It also holds
  the pure specification `Construct`, which says what building a node does: the new
  node or the escaping exception, the logged exception, and the reverse index afterwards.
  The lemmas about `Construct` are here too.
- `factory.dfy`: the factory as a class. The constructor is modelled as the method
  `NewControllerViewArtifactInfo`. It follows the Java code step by step and writes the
  factory's reverse index in place. It is proved against `Construct` and keeps the
  factory invariant `Valid()`: every entry of the views-referring-to-screen index is
  backed by the forward edge of the view it names.

Two collaborators are modelled as total functions held by the factory:
`viewInfoMaps(url, viewUri)` returns the attribute map or None (null), and
`screenWidgetArtifactInfos(name, location)` returns a screen, null, or an exception.
The logged warning is returned as the method's `warning` result.

Where the system's design notes and the code disagree, the model follows the code:

- The page pointer is split at the FIRST `#`, because the code uses `indexOf`.
- `getRequestsThatThisViewIsResponseTo` returns null (None) when no request refers to
  the view, because the code does not default to an empty set.

## Model

| member | source | states |
|---|---|---|
| Identity.IndexOf | framework/webtools/src/org/ofbiz/webtools/artifactinfo/ControllerViewArtifactInfo.java:63 | the result is -1 exactly when the character is absent; otherwise it is the position of its first occurrence |
| Identity.UniqueId | framework/webtools/src/org/ofbiz/webtools/artifactinfo/ControllerViewArtifactInfo.java:97-99 | the id is the URL's external form, then `#` at that position, then the view uri, and nothing else |
| Identity.UniqueIdInjective | framework/webtools/src/org/ofbiz/webtools/artifactinfo/ControllerViewArtifactInfo.java:97-99 | equal ids mean equal URL and view uri, provided neither view uri contains `#` |
| Identity.UniqueIdCollision | framework/webtools/src/org/ofbiz/webtools/artifactinfo/ControllerViewArtifactInfo.java:97-99 | without that proviso, two different views can share one id, because `#` is not escaped |
| ReverseIndex.AddToSetInMap | framework/webtools/src/org/ofbiz/webtools/artifactinfo/ControllerViewArtifactInfo.java:68 | the key's set gains the element, an absent key gets a singleton set, and every other key keeps its set |
| ReverseIndex.AddToSetInMapPresent | framework/webtools/src/org/ofbiz/webtools/artifactinfo/ControllerViewArtifactInfo.java:68 | adding an element already in the key's set changes nothing |
| ReverseIndex.AddToSetInMapIdempotent | framework/webtools/src/org/ofbiz/webtools/artifactinfo/ControllerViewArtifactInfo.java:68 | repeating an insertion adds no duplicate |
| ControllerView.ControllerViewArtifactInfo.GetDisplayName | framework/webtools/src/org/ofbiz/webtools/artifactinfo/ControllerViewArtifactInfo.java:85-87 | the display name equals the unique id, which is the URL form, `#`, and the view uri |
| ControllerView.ControllerViewArtifactInfo.GetDisplayType | framework/webtools/src/org/ofbiz/webtools/artifactinfo/ControllerViewArtifactInfo.java:89-91 | the display type is the constant "Controller View" |
| ControllerView.ControllerViewArtifactInfo.GetType | framework/webtools/src/org/ofbiz/webtools/artifactinfo/ControllerViewArtifactInfo.java:93-95 | the type is the controller-view type id |
| ControllerView.ControllerViewArtifactInfo.Equals | framework/webtools/src/org/ofbiz/webtools/artifactinfo/ControllerViewArtifactInfo.java:101-109 | true exactly when the other object is a controller view with the same URL and view uri; null and other kinds are never equal; equal views have equal unique ids |
| ControllerView.EqualsIsEquivalence | framework/webtools/src/org/ofbiz/webtools/artifactinfo/ControllerViewArtifactInfo.java:101-109 | equality is reflexive, symmetric and transitive |
| ControllerView.SameUniqueIdEquals | framework/webtools/src/org/ofbiz/webtools/artifactinfo/ControllerViewArtifactInfo.java:97-109 | if neither view uri contains `#`, two views have the same unique id exactly when they are equal |
| ControllerView.ScreenPointer | framework/webtools/src/org/ofbiz/webtools/artifactinfo/ControllerViewArtifactInfo.java:60-62 | a pointer is produced only when the type is exactly "screen" and the page is present and non-empty, and then it is that page |
| ControllerView.SplitScreenPointer | framework/webtools/src/org/ofbiz/webtools/artifactinfo/ControllerViewArtifactInfo.java:63-65 | it fails out of bounds at -1 exactly when the pointer has no `#`; otherwise the pointer is the location, `#`, and the name, and the location has no `#` |
| ControllerView.SplitScreenPointerRoundTrip | framework/webtools/src/org/ofbiz/webtools/artifactinfo/ControllerViewArtifactInfo.java:63-65 | splitting `location#name` gives back (location, name) whenever the location has no `#` |
| ControllerView.ConstructOutcomeIgnoresIndex | framework/webtools/src/org/ofbiz/webtools/artifactinfo/ControllerViewArtifactInfo.java:45-75 | the node built and the warning logged do not depend on the reverse index held before |
| ControllerView.ConstructNotFound | framework/webtools/src/org/ofbiz/webtools/artifactinfo/ControllerViewArtifactInfo.java:50-54 | construction fails with a GeneralException exactly when the view has no attribute map; that failure carries the not-found message and registers nothing |
| ControllerView.ConstructFailureRegistersNothing | framework/webtools/src/org/ofbiz/webtools/artifactinfo/ControllerViewArtifactInfo.java:50-74 | whatever exception escapes, the reverse index is unchanged and nothing is logged |
| ControllerView.ConstructWithoutScreenPointer | framework/webtools/src/org/ofbiz/webtools/artifactinfo/ControllerViewArtifactInfo.java:60-62 | without a screen pointer, the result does not depend on the screen lookup, there is no screen edge, and the index is unchanged |
| ControllerView.ConstructScreenLookupArguments | framework/webtools/src/org/ofbiz/webtools/artifactinfo/ControllerViewArtifactInfo.java:63-72 | for a pointer `location#name`, the screen is looked up with (name, location); a screen sets the edge, null leaves it unset, a GeneralException is logged and leaves the edge and index unchanged, and any other exception escapes |
| ControllerView.ConstructPointerWithoutSeparator | framework/webtools/src/org/ofbiz/webtools/artifactinfo/ControllerViewArtifactInfo.java:63-65 | a pointer without `#` makes construction fail out of bounds, with the index unchanged |
| ControllerView.ConstructRegistersView | framework/webtools/src/org/ofbiz/webtools/artifactinfo/ControllerViewArtifactInfo.java:66-69 | a resolved screen S puts the view into the index at S's id; that set gains only this view; other keys are unchanged; without a screen edge nothing changes |
| ControllerView.ConstructIndexEffect | framework/webtools/src/org/ofbiz/webtools/artifactinfo/ControllerViewArtifactInfo.java:66-69 | the index after construction is the old one plus the view under its forward edge's screen id, or the old one if there is no edge |
| ControllerView.ConstructIdempotent | framework/webtools/src/org/ofbiz/webtools/artifactinfo/ControllerViewArtifactInfo.java:66-69 | building the same view again yields the same node and adds no duplicate entry |
| ControllerView.ConstructPreservesIndexSound | framework/webtools/src/org/ofbiz/webtools/artifactinfo/ControllerViewArtifactInfo.java:59-69 | if every index entry is backed by a forward edge before construction, the same holds afterwards |
| ControllerView.ConstructOnEmptyIndex | framework/webtools/src/org/ofbiz/webtools/artifactinfo/ControllerViewArtifactInfo.java:66-69 | on an empty index, construction leaves exactly the view under its screen's id, or an empty index if no screen resolved |
| Factory.NewControllerViewArtifactInfo | framework/webtools/src/org/ofbiz/webtools/artifactinfo/ControllerViewArtifactInfo.java:45-75 | the constructor's node or exception, its logged warning and the new views-referring-to-screen index are those of `Construct`; the requests index is unchanged; the factory invariant is kept |
| Factory.GetRequestsThatThisViewIsResponseTo | framework/webtools/src/org/ofbiz/webtools/artifactinfo/ControllerViewArtifactInfo.java:111-113 | a read-only lookup at the view's unique id: None (null) exactly when no request is recorded there, otherwise the recorded set |
| Factory.RequestsDependOnIdentityOnly | framework/webtools/src/org/ofbiz/webtools/artifactinfo/ControllerViewArtifactInfo.java:111-113 | equal views get the same requests |

## Left out

- The second null check at ControllerViewArtifactInfo.java:56-58 is unreachable after the first one, so it is not modelled.
- `java.net.URL` is reduced to its external form. URL equality is modelled as equality of external forms.
- `Debug.logWarning` is logging I/O. The model returns the logged exception as the `warning` result instead; the text of `e.toString()` is not modelled.
- The factory's own construction, its caching, and its parsing of controller and screen files live in `ArtifactInfoFactory` and `ConfigXMLReader`, which are not part of this model. Both lookups are total functions fixed for the factory's lifetime. Any side effects of the screen lookup (building a screen node and its own reverse-index entries) are not modelled.
- The constant values of `ConfigXMLReader.VIEW_TYPE` ("type"), `ConfigXMLReader.VIEW_PAGE` ("page") and `ArtifactInfoFactory.ControllerViewInfoTypeId` ("controllerView") come from files that are not part of this model. They are written as named constants.
- Nulls other than the two lookups' results are not modelled: a null view uri, a null URL, or a null value stored in the attribute map. A missing map key stands for `get` returning null.
- The reverse index stores views by their identifying fields (`ViewId`), which are what `equals` compares. Java object identity and `hashCode` (defined in `ArtifactInfoBase`, which is not part of this model) are not modelled.
- `getControllerXmlUrl`, `getViewUri` and `getScreenCalledByThisView` are the datatype's fields `controllerXmlUrl`, `viewUri` and `screenCalledByThisView`, so they have no separate member.
