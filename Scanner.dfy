/** The container classification of sentinel-backend/core/scanner.py. The
    Docker client is replaced by the list of containers it reports. */
module Scanner {
  import opened Base
  import opened Text

  /** What `scan_containers` reads of one Docker container. */
  datatype DockerContainer = DockerContainer(
    shortId: string,
    name: Option<string>,    // container.name, which may be None
    tags: seq<string>,       // container.image.tags
    imageText: string,       // str(container.image)
    status: string)

  /** The pydantic model `ContainerInfo`. */
  datatype ContainerInfo = ContainerInfo(
    id: string,
    name: string,
    image: string,
    status: string,
    isSanctioned: bool,
    threatLevel: string)

  const Marker := "archestra"

  /** `image.tags if image.tags else [str(image)]`: never empty. */
  function ImageTags(c: DockerContainer): (r: seq<string>)
    ensures |r| > 0
  {
    if |c.tags| > 0 then c.tags else [c.imageText]
  }

  /** Python's `repr` of a string: single quotes unless the text holds a
      single quote and no double quote (escapes are not modelled). */
  function StrRepr(s: string): string {
    var q := if '\'' in s && '"' !in s then '"' else '\'';
    [q] + s + [q]
  }

  /** The items of a list repr, separated by ", ". */
  function JoinReprs(ts: seq<string>): string
    decreases |ts|
  {
    if ts == [] then ""
    else if |ts| == 1 then StrRepr(ts[0])
    else StrRepr(ts[0]) + "," + " " + JoinReprs(ts[1..])
  }

  /** `str(image_tags)`: Python's `repr` of a list of strings. */
  function ListRepr(ts: seq<string>): string {
    "[" + JoinReprs(ts) + "]"
  }

  /** The sanctioning test: "archestra" in the lower-cased name or in the
      lower-cased text of the tag list. */
  predicate IsSanctioned(c: DockerContainer) {
    Contains(Lower(c.name.GetOr("")), Marker) || Contains(Lower(ListRepr(ImageTags(c))), Marker)
  }

  /** The record the loop body builds for one container. */
  function Classify(c: DockerContainer): ContainerInfo {
    var tags := ImageTags(c);
    var sanctioned := IsSanctioned(c);
    ContainerInfo(
      c.shortId,
      c.name.GetOr(""),
      if |tags| > 0 then tags[0] else "unknown",
      c.status,
      sanctioned,
      if sanctioned then "Low" else "High")
  }

  /** `DockerScanner.scan_containers()`; `client` is None when the Docker
      connection failed in the constructor. */
  method ScanContainers(client: Option<seq<DockerContainer>>) returns (results: seq<ContainerInfo>)
    ensures client.None? ==> results == []
    ensures client.Some? ==> |results| == |client.value|
    ensures client.Some? ==> forall i :: 0 <= i < |results| ==> results[i] == Classify(client.value[i])
  {
    if client.None? {
      return [];
    }
    var containers := client.value;
    results := [];
    var k := 0;
    while k < |containers|
      invariant 0 <= k <= |containers|
      invariant |results| == k
      invariant forall i :: 0 <= i < k ==> results[i] == Classify(containers[i])
    {
      var container := containers[k];
      var isSanctioned := false;
      var threatLevel := "High";

      var name := container.name.GetOr("");
      var imageTags := if |container.tags| > 0 then container.tags else [container.imageText];
      var imageStr := ListRepr(imageTags);

      if Contains(Lower(name), Marker) || Contains(Lower(imageStr), Marker) {
        isSanctioned := true;
        threatLevel := "Low";
      }

      var info := ContainerInfo(
        container.shortId,
        name,
        if |imageTags| > 0 then imageTags[0] else "unknown",
        container.status,
        isSanctioned,
        threatLevel);
      results := results + [info];
      k := k + 1;
    }
  }

  /** The characters Python adds around and between list items; none of them
      occurs in "archestra". */
  lemma MarkerHasNoPunctuation()
    ensures '[' !in Marker && ']' !in Marker && ',' !in Marker && ' ' !in Marker
    ensures '\'' !in Marker && '"' !in Marker
  {
  }

  lemma LowerStrRepr(s: string)
    ensures exists q: char :: (q == '\'' || q == '"') && Lower(StrRepr(s)) == [q] + Lower(s) + [q]
  {
    var q := if '\'' in s && '"' !in s then '"' else '\'';
    LowerConcat([q] + s, [q]);
    LowerConcat([q], s);
    assert Lower([q]) == [q];
  }

  lemma {:induction false} MarkerInStrRepr(s: string)
    ensures Contains(Lower(StrRepr(s)), Marker) <==> Contains(Lower(s), Marker)
  {
    LowerStrRepr(s);
    var q: char :| (q == '\'' || q == '"') && Lower(StrRepr(s)) == [q] + Lower(s) + [q];
    ContainsAcross([], q, Lower(s) + [q], Marker);
    assert [q] + Lower(s) + [q] == [] + [q] + (Lower(s) + [q]);
    ContainsAcross(Lower(s), q, [], Marker);
    assert Lower(s) + [q] == Lower(s) + [q] + [];
    assert !Contains([], Marker);
  }

  /** Some item of `ts`, lower-cased, contains "archestra". */
  predicate SomeItemHasMarker(ts: seq<string>) {
    exists i :: 0 <= i < |ts| && Contains(Lower(ts[i]), Marker)
  }

  lemma SomeItemHasMarkerCons(ts: seq<string>)
    requires |ts| > 0
    ensures SomeItemHasMarker(ts) <==> Contains(Lower(ts[0]), Marker) || SomeItemHasMarker(ts[1..])
  {
    if SomeItemHasMarker(ts) {
      var i :| 0 <= i < |ts| && Contains(Lower(ts[i]), Marker);
      if i > 0 {
        assert ts[1..][i - 1] == ts[i];
      }
    }
    if SomeItemHasMarker(ts[1..]) {
      var i :| 0 <= i < |ts[1..]| && Contains(Lower(ts[1..][i]), Marker);
      assert ts[i + 1] == ts[1..][i];
    }
  }

  /** "archestra" cannot straddle the ", " between two list items. */
  lemma MarkerAcrossSeparator(x: string, y: string)
    ensures Contains(Lower(x + "," + " " + y), Marker) <==> Contains(Lower(x), Marker) || Contains(Lower(y), Marker)
  {
    LowerConcat(x + ",", " " + y);
    LowerConcat(x, ",");
    LowerConcat(" ", y);
    assert Lower(",") == [','] && Lower(" ") == [' '];
    assert Lower(x + "," + " " + y) == Lower(x) + [','] + ([' '] + Lower(y));
    ContainsAcross(Lower(x), ',', [' '] + Lower(y), Marker);
    assert [' '] + Lower(y) == [] + [' '] + Lower(y);
    ContainsAcross([], ' ', Lower(y), Marker);
    assert !Contains([], Marker);
  }

  /** "archestra" occurs in the lower-cased list text exactly when it occurs
      in some lower-cased item: it cannot straddle the punctuation. */
  lemma {:induction false} MarkerInJoin(ts: seq<string>)
    ensures Contains(Lower(JoinReprs(ts)), Marker) <==> SomeItemHasMarker(ts)
    decreases |ts|
  {
    if ts == [] {
      assert !Contains(Lower(""), Marker);
    } else {
      SomeItemHasMarkerCons(ts);
      MarkerInStrRepr(ts[0]);
      if |ts| == 1 {
        assert !SomeItemHasMarker(ts[1..]);
      } else {
        MarkerAcrossSeparator(StrRepr(ts[0]), JoinReprs(ts[1..]));
        MarkerInJoin(ts[1..]);
      }
    }
  }

  /** A container is sanctioned exactly when "archestra" occurs, ignoring
      case, in its name or in one of its image tags (the image's own text
      standing in when it has no tags). */
  lemma SanctionedIffMarker(c: DockerContainer)
    ensures IsSanctioned(c) <==>
      Contains(Lower(c.name.GetOr("")), Marker) || SomeItemHasMarker(ImageTags(c))
  {
    var body := JoinReprs(ImageTags(c));
    LowerConcat("[" + body, "]");
    LowerConcat("[", body);
    assert Lower("[") == ['['] && Lower("]") == [']'];
    assert Lower(ListRepr(ImageTags(c))) == [] + ['['] + (Lower(body) + [']'] + []);
    ContainsAcross([], '[', Lower(body) + [']'] + [], Marker);
    ContainsAcross(Lower(body), ']', [], Marker);
    assert !Contains([], Marker);
    MarkerInJoin(ImageTags(c));
  }

  /** What one output record says about its container; in particular the
      "unknown" image fallback never fires, since the tag list is never empty. */
  lemma ClassifyFacts(c: DockerContainer)
    ensures Classify(c).isSanctioned == IsSanctioned(c)
    ensures Classify(c).threatLevel == "Low" <==> Classify(c).isSanctioned
    ensures !Classify(c).isSanctioned ==> Classify(c).threatLevel == "High"
    ensures Classify(c).image == (if |c.tags| > 0 then c.tags[0] else c.imageText)
    ensures c.name.None? ==> Classify(c).name == ""
    ensures Classify(c).id == c.shortId && Classify(c).status == c.status
  {
  }
}
