/**
  Provider IDs: the two independent conversions from an instance URL, the string form, and the parser
  that reads it back.
 */
module ProviderIds {
  import opened CloudApi
  import opened Text

  // ----- util/resourceurl/parse.go and cloud/providerid/providerid.go -----

  datatype ResourceUrl = ResourceUrl(category: string, project: string, location: string, sub: string, name: string)

  const UrlPrefix: string := "https://www.googleapis.com/"

  function ParseUrl(url: string): Option<ResourceUrl> {
    if !HasPrefix(url, UrlPrefix) then None
    else
      var parts := Split(url[|UrlPrefix|..], '/');
      if |parts| != 8 then None else Some(ResourceUrl(parts[0], parts[3], parts[5], parts[6], parts[7]))
  }

  datatype ProviderId = ProviderId(project: string, location: string, name: string) {
    function Text(): string { "gce://" + PathJoin([project, location, name]) }
  }

  function New(project: string, location: string, name: string): Option<ProviderId> {
    if project == "" || location == "" || name == "" then None else Some(ProviderId(project, location, name))
  }

  function FromResourceUrl(url: string): Option<ProviderId> {
    match ParseUrl(url)
    case None => None
    case Some(u) => New(u.project, u.location, u.name)
  }

  // ----- exp/controllers/gcpmachinepool_controller.go -----

  const ComputePrefix: string := "https://www.googleapis.com/compute/v1/"

  function Plain(project: string, location: string, name: string): string {
    "gce://" + Join([project, location, name], '/')
  }

  function FromInstanceUrl(url: string): Option<string> {
    var tokens := Split(TrimPrefix(url, ComputePrefix), '/');
    if |tokens| == 6 && tokens[0] == "projects" && tokens[2] == "zones" && tokens[4] == "instances" then
      Some(Plain(tokens[1], tokens[3], tokens[5]))
    else None
  }

  /** The whole list, filled by index; the first URL of another form fails the call. */
  method ProviderIdList(urls: seq<string>) returns (ids: Option<seq<string>>)
    ensures ids == None <==> exists i :: 0 <= i < |urls| && FromInstanceUrl(urls[i]) == None
    ensures ids != None ==> |ids.value| == |urls|
    ensures ids != None ==> forall i :: 0 <= i < |urls| ==> FromInstanceUrl(urls[i]) == Some(ids.value[i])
  {
    var list := new string[|urls|];
    for i := 0 to |urls|
      invariant forall j :: 0 <= j < i ==> FromInstanceUrl(urls[j]) == Some(list[j])
    {
      var id := FromInstanceUrl(urls[i]);
      if id == None {
        return None;
      }
      list[i] := id.value;
    }
    return Some(list[..]);
  }

  // ----- cloud/scope/providerid.go -----

  datatype Parsed = Parsed(cloudProvider: string, id: string)

  datatype ParseResult = Accepted(parsed: Parsed) | EmptyId | InvalidId

  /** The regular expression ^[^:]+://.*[^/]$ of the source; a dot matches no newline. */
  ghost predicate Matches(id: string) {
    exists a: string, b: string, last: char :: MatchesAs(id, a, b, last)
  }

  ghost predicate MatchesAs(id: string, a: string, b: string, last: char) {
    id == a + "://" + b + [last] && a != "" && ':' !in a && '\n' !in b && last != '/'
  }

  /** The same test made at the first colon. */
  predicate WellFormed(id: string) {
    var i := Index(id, ':');
    && 1 <= i && i + 4 <= |id| && id[i..i + 3] == "://"
    && '\n' !in id[i + 3..|id| - 1] && id[|id| - 1] != '/'
  }

  lemma WellFormedIffMatches(id: string)
    ensures WellFormed(id) <==> Matches(id)
  {
    var i := Index(id, ':');
    if WellFormed(id) {
      assert id == id[..i] + "://" + id[i + 3..|id| - 1] + [id[|id| - 1]];
      assert MatchesAs(id, id[..i], id[i + 3..|id| - 1], id[|id| - 1]);
    }
    if Matches(id) {
      var a, b, last :| MatchesAs(id, a, b, last);
      assert id[..|a|] == a && id[|a|] == ':';
      FirstColon(id, |a|, i);
      assert id[i + 3..|id| - 1] == b;
    }
  }

  lemma FirstColon(s: string, n: nat, i: nat)
    requires n < |s| && (forall j :: 0 <= j < n ==> s[j] != ':') && s[n] == ':'
    requires i < |s| && (forall j :: 0 <= j < i ==> s[j] != ':') && s[i] == ':'
    ensures i == n
  {
  }

  function AfterLast(s: string, c: char): string
    decreases |s|
  {
    var i := Index(s, c);
    if i < |s| then AfterLast(s[i + 1..], c) else s
  }

  function NewProviderId(id: string): ParseResult {
    if id == "" then EmptyId
    else if !WellFormed(id) then InvalidId
    else
      var parsed := Parsed(id[..Index(id, ':')], AfterLast(id, '/'));
      if parsed.cloudProvider == "" || parsed.id == "" then InvalidId else Accepted(parsed)
  }

  // ----- when path.Join changes nothing -----

  /** A segment that path.Clean keeps after `done`. */
  predicate Kept(done: seq<string>, s: string) {
    s != "" && s != "." && (s == ".." ==> done == [] || done[|done| - 1] == "..")
  }

  predicate AllKept(done: seq<string>, segments: seq<string>)
    decreases |segments|
  {
    segments == [] || (Kept(done, segments[0]) && AllKept(done + [segments[0]], segments[1..]))
  }

  lemma {:induction false} CleanIsShorter(done: seq<string>, segments: seq<string>)
    ensures |CleanSegments(false, done, segments)| <= |done| + |segments|
    ensures forall p :: p in CleanSegments(false, done, segments) ==> p in done || p in segments
    decreases |segments|
  {
    if segments != [] {
      var s, rest := segments[0], segments[1..];
      CleanIsShorter(done, rest);
      CleanIsShorter(done + [s], rest);
      if done != [] { CleanIsShorter(done[..|done| - 1], rest); }
    }
  }

  lemma DroppedIsShorter(done: seq<string>, segments: seq<string>)
    requires segments != [] && !Kept(done, segments[0])
    ensures |CleanSegments(false, done, segments)| < |done| + |segments|
  {
    CleanIsShorter(done, segments[1..]);
    if done != [] { CleanIsShorter(done[..|done| - 1], segments[1..]); }
  }

  lemma {:induction false} CleanKeepsIff(done: seq<string>, segments: seq<string>)
    ensures CleanSegments(false, done, segments) == done + segments <==> AllKept(done, segments)
    decreases |segments|
  {
    if segments != [] {
      var s, rest := segments[0], segments[1..];
      if Kept(done, s) {
        assert CleanSegments(false, done, segments) == CleanSegments(false, done + [s], rest);
        CleanKeepsIff(done + [s], rest);
        assert done + [s] + rest == done + segments;
      } else {
        DroppedIsShorter(done, segments);
      }
    }
  }

  /** The parts of an instance URL: no part is empty and none holds a slash. */
  predicate Parts(p: string, l: string, n: string) {
    p != "" && l != "" && n != "" && '/' !in p && '/' !in l && '/' !in n
  }

  predicate Undisturbed(p: string, l: string, n: string) {
    && p != "." && l != "." && n != "."
    && (l == ".." ==> p == "..")
    && (n == ".." ==> l == "..")
  }

  lemma PathOf(p: string, l: string, n: string)
    requires Parts(p, l, n)
    ensures PathJoin([p, l, n]) == Clean(Join([p, l, n], '/'))
    ensures Join([p, l, n], '/') == p + "/" + l + "/" + n
    ensures Split(Join([p, l, n], '/'), '/') == [p, l, n]
  {
    assert [p, l, n][1..] == [l, n] && [l, n][1..] == [n] && [n][1..] == [];
    assert NonEmpty([n]) == [n];
    assert NonEmpty([l, n]) == [l] + NonEmpty([n]);
    assert NonEmpty([p, l, n]) == [p] + NonEmpty([l, n]) == [p, l, n];
    assert Join([l, n], '/') == l + "/" + Join([n], '/');
    assert p + "/" + l + "/" + n == p + ['/'] + (l + "/" + n);
    SplitJoin([p, l, n], '/');
  }

  lemma AllKeptIff(p: string, l: string, n: string)
    requires Parts(p, l, n)
    ensures AllKept([], [p, l, n]) <==> Undisturbed(p, l, n)
  {
    assert [p, l, n][1..] == [l, n] && [l, n][1..] == [n] && [n][1..] == [];
    assert [] + [p] == [p] && [p] + [l] == [p, l];
    assert AllKept([p, l], [n]) <==> Kept([p, l], n);
    assert AllKept([p], [l, n]) <==> Kept([p], l) && AllKept([p, l], [n]);
  }

  /** The two string forms of a provider ID agree exactly when path.Clean has nothing to resolve. */
  lemma FormsAgreeIff(p: string, l: string, n: string)
    requires Parts(p, l, n)
    ensures ProviderId(p, l, n).Text() == Plain(p, l, n) <==> Undisturbed(p, l, n)
  {
    PathOf(p, l, n);
    var path := Join([p, l, n], '/');
    assert path[0] == p[0] && p[0] in p;
    var segments := CleanSegments(false, [], [p, l, n]);
    CleanIsShorter([], [p, l, n]);
    CleanKeepsIff([], [p, l, n]);
    AllKeptIff(p, l, n);
    assert [] + [p, l, n] == [p, l, n];
    assert |path| >= 5;
    if Clean(path) == path && segments != [] {
      JoinInjective(segments, [p, l, n], '/');
    }
    assert ("gce://" + Clean(path))[6..] == Clean(path) && ("gce://" + path)[6..] == path;
  }

  // ----- the two URL parsers -----

  function InstanceUrl(p: string, l: string, n: string): string {
    ComputePrefix + Join(["projects", p, "zones", l, "instances", n], '/')
  }

  lemma PrefixSplits(url: string)
    requires HasPrefix(url, ComputePrefix)
    ensures HasPrefix(url, UrlPrefix)
    ensures Split(url[|UrlPrefix|..], '/') == ["compute", "v1"] + Split(url[|ComputePrefix|..], '/')
  {
    var rest := url[|ComputePrefix|..];
    assert ComputePrefix == UrlPrefix + "compute/v1/";
    assert url == ComputePrefix + rest;
    var tail := "v1" + ['/'] + rest;
    assert url[|UrlPrefix|..] == "compute" + ['/'] + tail;
    SplitAppend("compute", '/', tail);
    SplitAppend("v1", '/', rest);
    assert ["compute"] + (["v1"] + Split(rest, '/')) == ["compute", "v1"] + Split(rest, '/');
  }

  /** A URL without the compute prefix that starts with https is no instance URL. */
  lemma OtherPrefix(url: string)
    requires HasPrefix(url, UrlPrefix) && !HasPrefix(url, ComputePrefix)
    ensures FromInstanceUrl(url) == None
  {
    var rest := url[|"https:/"|..];
    assert url[..|UrlPrefix|] == UrlPrefix;
    assert url == "https:" + ['/'] + rest;
    SplitAppend("https:", '/', rest);
  }

  /** Both parsers accept exactly the instance URLs with non-empty parts. */
  lemma BothAcceptIff(url: string)
    ensures FromResourceUrl(url) != None && FromInstanceUrl(url) != None <==>
            exists p, l, n :: Parts(p, l, n) && url == InstanceUrl(p, l, n)
  {
    if FromResourceUrl(url) != None && FromInstanceUrl(url) != None {
      if !HasPrefix(url, ComputePrefix) { OtherPrefix(url); }
      PrefixSplits(url);
      var rest := url[|ComputePrefix|..];
      var tokens := Split(rest, '/');
      SplitParts(rest, '/');
      assert tokens == ["projects", tokens[1], "zones", tokens[3], "instances", tokens[5]];
      assert tokens[1] in tokens && tokens[3] in tokens && tokens[5] in tokens;
      assert url == InstanceUrl(tokens[1], tokens[3], tokens[5]);
      var parts := ["compute", "v1"] + tokens;
      assert parts[3] == tokens[1] && parts[5] == tokens[3] && parts[7] == tokens[5];
    }
    if p, l, n :| Parts(p, l, n) && url == InstanceUrl(p, l, n) {
      InstanceUrlParses(p, l, n);
    }
  }

  lemma InstanceUrlParses(p: string, l: string, n: string)
    requires Parts(p, l, n)
    ensures FromResourceUrl(InstanceUrl(p, l, n)) == Some(ProviderId(p, l, n))
    ensures FromInstanceUrl(InstanceUrl(p, l, n)) == Some(Plain(p, l, n))
  {
    var tokens := ["projects", p, "zones", l, "instances", n];
    SplitJoin(tokens, '/');
    var url := InstanceUrl(p, l, n);
    assert url[|ComputePrefix|..] == Join(tokens, '/');
    PrefixSplits(url);
    var parts := ["compute", "v1"] + tokens;
    assert parts[3] == p && parts[5] == l && parts[7] == n;
  }

  /** On every URL both accept, they give the same provider ID exactly when no part needs resolving. */
  lemma ParsersAgreeIff(p: string, l: string, n: string)
    requires Parts(p, l, n)
    ensures var url := InstanceUrl(p, l, n);
      && FromResourceUrl(url).Some? && FromInstanceUrl(url).Some?
      && (FromResourceUrl(url).value.Text() == FromInstanceUrl(url).value <==> Undisturbed(p, l, n))
  {
    InstanceUrlParses(p, l, n);
    FormsAgreeIff(p, l, n);
  }

  /** Exactly the URLs of eight parts are read, whatever kind of resource they name. */
  lemma ResourceUrlIff(url: string, id: ProviderId)
    ensures FromResourceUrl(url) == Some(id) <==> exists parts :: EightParts(url, id, parts)
  {
    var front := "https://www.googleapis.com/";
    if FromResourceUrl(url) == Some(id) {
      var rest := url[|front|..];
      assert url == front + rest;
      SplitParts(rest, '/');
      assert EightParts(url, id, Split(rest, '/'));
    }
    if parts :| EightParts(url, id, parts) {
      assert url[|front|..] == Join(parts, '/');
      SplitJoin(parts, '/');
    }
  }

  ghost predicate EightParts(url: string, id: ProviderId, parts: seq<string>) {
    && |parts| == 8 && Without(parts, '/') && url == "https://www.googleapis.com/" + Join(parts, '/')
    && id.project == parts[3] && id.location == parts[5] && id.name == parts[7]
    && parts[3] != "" && parts[5] != "" && parts[7] != ""
  }

  /** Exactly the paths of zonal instances are read, with or without the host and version before them. */
  lemma InstanceUrlIff(url: string, id: string)
    ensures FromInstanceUrl(url) == Some(id) <==> exists p, l, n :: InstancePath(url, id, p, l, n)
  {
    var rest := TrimPrefix(url, ComputePrefix);
    var tokens := Split(rest, '/');
    if FromInstanceUrl(url) == Some(id) {
      SplitParts(rest, '/');
      var p, l, n := tokens[1], tokens[3], tokens[5];
      assert tokens == ["projects", p, "zones", l, "instances", n];
      assert p in tokens && l in tokens && n in tokens;
      SixJoined(p, l, n);
      ThreeJoined(p, l, n);
      if HasPrefix(url, ComputePrefix) { assert url == ComputePrefix + rest; }
      assert InstancePath(url, id, p, l, n);
    }
    if p, l, n :| InstancePath(url, id, p, l, n) {
      var path := "projects/" + p + "/zones/" + l + "/instances/" + n;
      assert path[0] == 'p' && ComputePrefix[0] == 'h';
      if url != path { assert url[|ComputePrefix|..] == path; }
      SixJoined(p, l, n);
      ThreeJoined(p, l, n);
      SplitJoin(["projects", p, "zones", l, "instances", n], '/');
    }
  }

  ghost predicate InstancePath(url: string, id: string, p: string, l: string, n: string) {
    && '/' !in p && '/' !in l && '/' !in n && id == "gce://" + p + "/" + l + "/" + n
    && var path := "projects/" + p + "/zones/" + l + "/instances/" + n;
      url == path || url == "https://www.googleapis.com/compute/v1/" + path
  }

  lemma SixJoined(p: string, l: string, n: string)
    ensures Join(["projects", p, "zones", l, "instances", n], '/') ==
            "projects/" + p + "/zones/" + l + "/instances/" + n
  {
    var six := ["projects", p, "zones", l, "instances", n];
    assert six[1..] == [p, "zones", l, "instances", n] && six[2..] == ["zones", l, "instances", n];
    assert six[3..] == [l, "instances", n] && six[4..] == ["instances", n] && six[5..] == [n];
    assert Join(six[4..], '/') == "instances" + ['/'] + n;
    assert Join(six[3..], '/') == l + ['/'] + Join(six[4..], '/');
    assert Join(six[2..], '/') == "zones" + ['/'] + Join(six[3..], '/');
    assert Join(six[1..], '/') == p + ['/'] + Join(six[2..], '/');
    assert Join(six, '/') == "projects" + ['/'] + Join(six[1..], '/');
  }

  lemma ThreeJoined(p: string, l: string, n: string)
    ensures Plain(p, l, n) == "gce://" + p + "/" + l + "/" + n
  {
    var three := [p, l, n];
    assert three[1..] == [l, n] && three[1..][1..] == [n];
    assert Join(three[1..], '/') == l + ['/'] + n;
    assert Join(three, '/') == p + ['/'] + Join(three[1..], '/');
  }

  // ----- which provider IDs are shared -----

  function Cleaned(p: string, l: string, n: string): seq<string> { CleanSegments(false, [], [p, l, n]) }

  /** What path.Clean leaves: no empty or dot segment, and double dots only at the front. */
  predicate WellKept(s: seq<string>) {
    forall i :: 0 <= i < |s| ==> s[i] != "" && s[i] != "." && (s[i] == ".." ==> i == 0 || s[i - 1] == "..")
  }

  lemma {:induction false} CleanIsWellKept(done: seq<string>, segments: seq<string>)
    requires WellKept(done)
    ensures WellKept(CleanSegments(false, done, segments))
    decreases |segments|
  {
    if segments != [] {
      var s, rest := segments[0], segments[1..];
      CleanIsWellKept(done, rest);
      if WellKept(done + [s]) { CleanIsWellKept(done + [s], rest); }
      if done != [] { CleanIsWellKept(done[..|done| - 1], rest); }
    }
  }

  /** As many segments as parts: nothing was resolved. */
  lemma FullLengthIff(p: string, l: string, n: string)
    requires Parts(p, l, n)
    ensures |Cleaned(p, l, n)| <= 3
    ensures |Cleaned(p, l, n)| == 3 <==> Undisturbed(p, l, n)
    ensures Undisturbed(p, l, n) ==> Cleaned(p, l, n) == [p, l, n]
  {
    AllKeptIff(p, l, n);
    CleanIsShorter([], [p, l, n]);
    CleanKeepsIff([], [p, l, n]);
    assert [] + [p, l, n] == [p, l, n];
    if |Cleaned(p, l, n)| == 3 { FullLength([], [p, l, n]); }
  }

  lemma {:induction false} FullLength(done: seq<string>, segments: seq<string>)
    requires |CleanSegments(false, done, segments)| == |done| + |segments|
    ensures AllKept(done, segments)
    decreases |segments|
  {
    if segments != [] {
      if Kept(done, segments[0]) {
        FullLength(done + [segments[0]], segments[1..]);
      } else {
        DroppedIsShorter(done, segments);
      }
    }
  }

  lemma TextOf(p: string, l: string, n: string)
    requires Parts(p, l, n)
    ensures var c := Cleaned(p, l, n);
      && WellKept(c) && Without(c, '/')
      && ProviderId(p, l, n).Text() == "gce://" + if c == [] then "." else Join(c, '/')
  {
    PathOf(p, l, n);
    CleanIsShorter([], [p, l, n]);
    CleanIsWellKept([], [p, l, n]);
    assert Join([p, l, n], '/')[0] == p[0] && p[0] in p;
  }

  /** The string tells the cleaned segments and nothing else. */
  lemma SameTextIff(p: string, l: string, n: string, p': string, l': string, n': string)
    requires Parts(p, l, n) && Parts(p', l', n')
    ensures ProviderId(p, l, n).Text() == ProviderId(p', l', n').Text() <==> Cleaned(p, l, n) == Cleaned(p', l', n')
  {
    TextOf(p, l, n);
    TextOf(p', l', n');
    var c, c' := Cleaned(p, l, n), Cleaned(p', l', n');
    hide Cleaned, ProviderId.Text;
    if ProviderId(p, l, n).Text() == ProviderId(p', l', n').Text() {
      var path, path' := if c == [] then "." else Join(c, '/'), if c' == [] then "." else Join(c', '/');
      assert ("gce://" + path)[6..] == path && ("gce://" + path')[6..] == path';
      NotJustADot(c);
      NotJustADot(c');
      if c != [] && c' != [] { JoinInjective(c, c', '/'); }
    }
  }

  lemma NotJustADot(c: seq<string>)
    requires WellKept(c) && Without(c, '/')
    ensures c != [] ==> Join(c, '/') != "."
  {
    if c != [] { SplitJoin(c, '/'); }
    SplitFree(".", '/');
  }

  lemma OneStep(done: seq<string>, s: string, rest: seq<string>)
    ensures CleanSegments(false, done, [s] + rest) == CleanSegments(false, CleanSegments(false, done, [s]), rest)
  {
    assert ([s] + rest)[1..] == rest && [s][1..] == [];
  }

  lemma ThreeSteps(a: string, b: string, c: string)
    ensures var one := CleanSegments(false, [], [a]);
      var two := CleanSegments(false, one, [b]);
      Cleaned(a, b, c) == CleanSegments(false, two, [c])
  {
    assert [a, b, c] == [a] + ([b] + [c]);
    OneStep([], a, [b] + [c]);
    OneStep(CleanSegments(false, [], [a]), b, [c]);
  }

  /** Every list that path.Clean can shorten three parts to comes from two different triples. */
  lemma TwoSources(c: seq<string>)
    requires WellKept(c) && |c| < 3
    ensures c == [] ==> Cleaned(".", ".", ".") == c && Cleaned("a", "..", ".") == c
    ensures |c| == 1 ==> Cleaned(c[0], ".", ".") == c && Cleaned(".", c[0], ".") == c
    ensures |c| == 2 ==> Cleaned(c[0], c[1], ".") == c && Cleaned(c[0], ".", c[1]) == c
  {
    ThreeSteps(".", ".", ".");
    ThreeSteps("a", "..", ".");
    if |c| == 1 {
      ThreeSteps(c[0], ".", ".");
      ThreeSteps(".", c[0], ".");
    }
    if |c| == 2 {
      ThreeSteps(c[0], c[1], ".");
      ThreeSteps(c[0], ".", c[1]);
      assert [c[0]] + [c[1]] == c;
    }
  }

  /** Another instance than this one, with the same provider ID. */
  ghost predicate SharedWith(p: string, l: string, n: string, p': string, l': string, n': string) {
    Parts(p', l', n') && ProviderId(p', l', n').Text() == ProviderId(p, l, n).Text() && (p' != p || l' != l || n' != n)
  }

  /** An instance shares its provider ID with no other if and only if path.Clean has nothing to resolve in it. */
  lemma TextInjectiveIff(p: string, l: string, n: string)
    requires Parts(p, l, n)
    ensures Undisturbed(p, l, n) <==> forall p', l', n' :: !SharedWith(p, l, n, p', l', n')
  {
    hide Cleaned, ProviderId.Text;
    var c := Cleaned(p, l, n);
    FullLengthIff(p, l, n);
    TextOf(p, l, n);
    if Undisturbed(p, l, n) {
      forall p', l', n' | Parts(p', l', n') && ProviderId(p', l', n').Text() == ProviderId(p, l, n).Text()
        ensures p' == p && l' == l && n' == n
      {
        SameTextIff(p', l', n', p, l, n);
        FullLengthIff(p', l', n');
      }
    } else {
      TwoSources(c);
      if c == [] {
        SameTextIff(".", ".", ".", p, l, n);
        SameTextIff("a", "..", ".", p, l, n);
        assert SharedWith(p, l, n, ".", ".", ".") || SharedWith(p, l, n, "a", "..", ".");
      } else if |c| == 1 {
        assert c[0] in c;
        SameTextIff(c[0], ".", ".", p, l, n);
        SameTextIff(".", c[0], ".", p, l, n);
        assert SharedWith(p, l, n, c[0], ".", ".") || SharedWith(p, l, n, ".", c[0], ".");
      } else {
        assert c[0] in c && c[1] in c;
        SameTextIff(c[0], c[1], ".", p, l, n);
        SameTextIff(c[0], ".", c[1], p, l, n);
        assert SharedWith(p, l, n, c[0], c[1], ".") || SharedWith(p, l, n, c[0], ".", c[1]);
      }
    }
  }

  /** A dot is resolved away, so that two different instances share one provider ID. */
  lemma DotDropped(a: string, b: string)
    requires Parts(a, ".", b) && a !in {".", ".."} && b !in {".", ".."}
    ensures ProviderId(a, ".", b).Text() == ProviderId(a, b, ".").Text() == "gce://" + Join([a, b], '/')
  {
    hide Split, Join;
    PathOf(a, ".", b);
    PathOf(a, b, ".");
    assert [a, ".", b][1..] == [".", b] && [".", b][1..] == [b] && [b][1..] == [];
    assert [a, b, "."][1..] == [b, "."] && [b, "."][1..] == ["."] && ["."][1..] == [];
    assert [] + [a] == [a] && [a] + [b] == [a, b];
    assert CleanSegments(false, [a], [b]) == CleanSegments(false, [a, b], []);
    assert CleanSegments(false, [a], [".", b]) == CleanSegments(false, [a], [b]);
    assert CleanSegments(false, [], [a, ".", b]) == CleanSegments(false, [a], [".", b]);
    assert CleanSegments(false, [a, b], ["."]) == CleanSegments(false, [a, b], []);
    assert CleanSegments(false, [a], [b, "."]) == CleanSegments(false, [a, b], ["."]);
    assert CleanSegments(false, [], [a, b, "."]) == CleanSegments(false, [a], [b, "."]);
  }

  // ----- reading the string back -----

  lemma {:induction false} AfterLastFree(s: string, c: char)
    requires c !in s
    ensures AfterLast(s, c) == s
  {
  }

  lemma {:induction false} AfterLastAppend(a: string, c: char, b: string)
    requires c !in b
    ensures AfterLast(a + [c] + b, c) == b
    decreases |a|
  {
    var s := a + [c] + b;
    var i := Index(s, c);
    if i < |a| {
      assert s[i + 1..] == a[i + 1..] + [c] + b;
      AfterLastAppend(a[i + 1..], c, b);
    } else {
      assert s[|a|] == c;
      assert i == |a|;
      assert s[i + 1..] == b;
      AfterLastFree(b, c);
    }
  }

  predicate NewlineFree(p: string, l: string, n: string) {
    '\n' !in p && '\n' !in l && (n != "" ==> '\n' !in n[..|n| - 1])
  }

  /** Where NewProviderID looks in a provider ID whose name comes last. */
  lemma IdShape(path: string, n: string)
    requires n != ""
    ensures var id := "gce://" + path + n;
      && |id| >= 7 && Index(id, ':') == 3 && id[..3] == "gce" && id[3..6] == "://"
      && id[|id| - 1] == n[|n| - 1] && id[6..|id| - 1] == path + n[..|n| - 1]
  {
    var id := "gce://" + path + n;
    FirstColon(id, 3, Index(id, ':'));
  }

  lemma PlainShape(p: string, l: string, n: string)
    requires Parts(p, l, n)
    ensures Plain(p, l, n) == "gce://" + (p + "/" + l + "/") + n
    ensures AfterLast(Plain(p, l, n), '/') == n
  {
    PathOf(p, l, n);
    hide Join, AfterLast;
    var front := "gce://" + p + "/" + l;
    assert Plain(p, l, n) == front + ['/'] + n;
    AfterLastAppend(front, '/', n);
  }

  /** NewProviderID reads back provider and name, unless a newline stands anywhere but at the very end. */
  lemma ReadBackIff(p: string, l: string, n: string)
    requires Parts(p, l, n)
    ensures NewProviderId(Plain(p, l, n)) == Accepted(Parsed("gce", n)) <==> NewlineFree(p, l, n)
    ensures !NewlineFree(p, l, n) ==> NewProviderId(Plain(p, l, n)) == InvalidId
  {
    hide Plain, AfterLast, Index;
    PlainShape(p, l, n);
    IdShape(p + "/" + l + "/", n);
    assert (p + "/" + l + "/") + n[..|n| - 1] == p + "/" + l + "/" + n[..|n| - 1];
    NewlinePlaces(p, l, n[..|n| - 1]);
    assert n[|n| - 1] in n;
  }

  lemma NewlinePlaces(p: string, l: string, n: string)
    ensures '\n' in p + "/" + l + "/" + n <==> '\n' in p || '\n' in l || '\n' in n
  {
  }
}
