/**
  Artifact identity: how a controller view is named and how its unique id is built.
  A URL is modelled by its external form only; two URLs are the same exactly when
  their external forms are the same.
 */
module Identity {

  /** A `java.net.URL`, reduced to what `toExternalForm()` returns. */
  datatype Url = Url(externalForm: string)

  /** The two fields that identify a controller view: what `equals` compares. */
  datatype ViewId = ViewId(controllerXmlUrl: Url, viewUri: string)

  /** The identifying fields of a controller request (its defining file and its uri). */
  datatype RequestId = RequestId(controllerXmlUrl: Url, requestUri: string)

  /** The separator between defining file and local name in every unique id. */
  const Separator: char := '#'

  /** `String.indexOf(char)`: the first position of `c` in `s`, or -1 when there is none. */
  function IndexOf(s: string, c: char): (i: int)
    ensures -1 <= i < |s|
    ensures i == -1 <==> c !in s
    ensures 0 <= i ==> s[i] == c && c !in s[..i]
  {
    if s == [] then -1
    else if s[0] == c then 0
    else
      var j := IndexOf(s[1..], c);
      assert s == [s[0]] + s[1..];
      if j == -1 then -1
      else
        assert s[..j + 1] == [s[0]] + s[1..][..j];
        j + 1
  }

  /** The unique id of a controller view: the URL's external form, the separator, the view uri. */
  function UniqueId(controllerXmlUrl: Url, viewUri: string): (r: string)
    ensures |r| == |controllerXmlUrl.externalForm| + 1 + |viewUri|
    ensures r[..|controllerXmlUrl.externalForm|] == controllerXmlUrl.externalForm
    ensures r[|controllerXmlUrl.externalForm|] == Separator
    ensures r[|controllerXmlUrl.externalForm| + 1..] == viewUri
  {
    controllerXmlUrl.externalForm + [Separator] + viewUri
  }

  /**
    The unique id determines the view when the view uri holds no separator: the last
    separator of the id is then the one between the URL and the view uri.
   */
  lemma UniqueIdInjective(u1: Url, v1: string, u2: Url, v2: string)
    requires Separator !in v1 && Separator !in v2
    requires UniqueId(u1, v1) == UniqueId(u2, v2)
    ensures u1 == u2 && v1 == v2
  {
  }

  /**
    The documented ambiguity: separators inside the names are not escaped, so two
    different views can share a unique id.
   */
  lemma UniqueIdCollision()
    ensures ViewId(Url("a"), "b#c") != ViewId(Url("a#b"), "c")
    ensures UniqueId(Url("a"), "b#c") == UniqueId(Url("a#b"), "c")
  {
    assert UniqueId(Url("a"), "b#c") == "a#b#c";
    assert UniqueId(Url("a#b"), "c") == "a#b#c";
  }
}
