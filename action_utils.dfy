/** Helpers of the interactive action tests (Conformance::ActionLayerManager).

    The runtime calls (xrEnumerateBoundSourcesForAction, xrGetInputSourceLocalizedName,
    xrLocateSpace) are inputs: what the runtime answers to each call. */
module ActionUtils {
  import opened Wrappers

  /** An XrPath atom; XR_NULL_PATH is 0. */
  type XrPath = nat
  const XR_NULL_PATH: XrPath := 0

  /** An XrAction handle. */
  type XrAction = nat

  /** XR_FAILED: XRC_CHECK_THROW_XRCMD throws on a failure code. */
  predicate Failed(result: int) {
    result < 0
  }

  // ---------------------------------------------------------------------------
  // The two-call idiom (section 2.11 of the OpenXR 1.0 specification)
  // ---------------------------------------------------------------------------

  /** What the runtime answers to one call: its result code, the count it reports and
      the elements it writes into the caller's buffer. */
  datatype Reply<T> = Reply(result: int, countOutput: nat, written: seq<T>)

  /** The buffer after the runtime wrote `written` into it (at most its capacity). */
  function Overwrite<T>(buffer: seq<T>, written: seq<T>): (r: seq<T>)
    ensures |r| == |buffer|
    ensures forall i :: 0 <= i < |r| ==> r[i] == if i < |written| then written[i] else buffer[i]
  {
    if |written| >= |buffer| then written[..|buffer|] else written + buffer[|written|..]
  }

  /** A size query with capacity 0, then, only when the reported count is not zero, a
      second call into a buffer of that many `fill` elements. A failing call throws. */
  function TwoCall<T>(sizeQuery: Reply<T>, fillCall: Reply<T>, fill: T): (r: Result<seq<T>, int>)
    ensures r.Err? <==> Failed(sizeQuery.result) || (sizeQuery.countOutput != 0 && Failed(fillCall.result))
    ensures r.Err? ==> r.error == if Failed(sizeQuery.result) then sizeQuery.result else fillCall.result
    ensures r.Ok? ==> |r.value| == sizeQuery.countOutput
    ensures r.Ok? ==> forall i :: 0 <= i < |r.value| ==>
              r.value[i] == if i < |fillCall.written| then fillCall.written[i] else fill
  {
    if Failed(sizeQuery.result) then Err(sizeQuery.result)
    else if sizeQuery.countOutput == 0 then Ok([])
    else if Failed(fillCall.result) then Err(fillCall.result)
    else Ok(Overwrite(seq(sizeQuery.countOutput, _ => fill), fillCall.written))
  }

  /** EnumerateBoundSourcesForAction: the vector keeps the size of the first count,
      whatever count the second call reports. */
  function EnumerateBoundSources(sizeQuery: Reply<XrPath>, fillCall: Reply<XrPath>): Result<seq<XrPath>, int> {
    TwoCall(sizeQuery, fillCall, XR_NULL_PATH)
  }

  /** A zero count skips the second call and yields no sources. */
  lemma EnumerateNoSources(sizeQuery: Reply<XrPath>, fillCall: Reply<XrPath>)
    requires !Failed(sizeQuery.result) && sizeQuery.countOutput == 0
    ensures EnumerateBoundSources(sizeQuery, fillCall) == Ok([])
  {
  }

  /** A runtime that fills the buffer it is given yields exactly what it wrote. */
  lemma EnumerateFilled(sizeQuery: Reply<XrPath>, fillCall: Reply<XrPath>)
    requires !Failed(sizeQuery.result) && !Failed(fillCall.result)
    requires sizeQuery.countOutput != 0 && |fillCall.written| == sizeQuery.countOutput
    ensures EnumerateBoundSources(sizeQuery, fillCall) == Ok(fillCall.written)
  {
    var r := EnumerateBoundSources(sizeQuery, fillCall);
    assert r.value == fillCall.written by {
      forall i | 0 <= i < |fillCall.written| ensures r.value[i] == fillCall.written[i] {
      }
    }
  }

  /** std::string(const char*): the characters before the first NUL. The constructor
      reads a C string, so a buffer without a NUL is outside its domain. */
  function UpToNul(s: seq<char>): (r: seq<char>)
    requires '\0' in s
    ensures |r| < |s| && r == s[..|r|] && s[|r|] == '\0'
    ensures '\0' !in r
  {
    if s == [] || s[0] == '\0' then [] else [s[0]] + UpToNul(s[1..])
  }

  /** A NUL-terminated text reads back as itself. */
  lemma {:induction false} UpToNulTerminated(text: seq<char>, rest: seq<char>)
    requires '\0' !in text
    ensures UpToNul(text + ['\0'] + rest) == text
  {
    if text != [] {
      assert (text + ['\0'] + rest)[1..] == text[1..] + ['\0'] + rest;
      UpToNulTerminated(text[1..], rest);
    }
  }

  /** The name read from a NUL-filled buffer comes from what the runtime wrote. */
  lemma UpToNulWritten(buffer: seq<char>, written: seq<char>)
    requires forall i :: 0 <= i < |buffer| ==> buffer[i] == if i < |written| then written[i] else '\0'
    requires '\0' in buffer
    ensures |UpToNul(buffer)| <= |written| && UpToNul(buffer) == written[..|UpToNul(buffer)|]
  {
    var name := UpToNul(buffer);
    forall i | 0 <= i < |name| ensures i < |written| && name[i] == written[i] {
      assert name[i] == buffer[i] && name[i] in name;
      assert buffer[i] == written[i];
    }
    if |name| > 0 {
      assert name[|name| - 1] == written[|name| - 1];
    }
  }

  /** GetInputSourceLocalizedName: "" for a zero count, otherwise the NUL-filled buffer
      up to its first NUL. `None` where the code reads past the buffer: a successful fill
      that leaves no NUL in it. */
  function GetInputSourceLocalizedName(sizeQuery: Reply<char>, fillCall: Reply<char>): (r: Option<Result<string, int>>)
    ensures r.None? <==> !Failed(sizeQuery.result) && sizeQuery.countOutput != 0 && !Failed(fillCall.result)
                         && '\0' !in TwoCall(sizeQuery, fillCall, '\0').value
    ensures r.Some? ==>
              (r.value.Err? <==> Failed(sizeQuery.result) || (sizeQuery.countOutput != 0 && Failed(fillCall.result)))
    ensures r.Some? && r.value.Ok? && sizeQuery.countOutput == 0 ==> r.value.value == ""
    ensures r.Some? && r.value.Ok? ==> '\0' !in r.value.value && |r.value.value| <= sizeQuery.countOutput
    ensures r.Some? && r.value.Ok? && sizeQuery.countOutput != 0 ==> |r.value.value| < sizeQuery.countOutput
    ensures r.Some? && r.value.Ok? ==>
              |r.value.value| <= |fillCall.written| && r.value.value == fillCall.written[..|r.value.value|]
  {
    var t := TwoCall(sizeQuery, fillCall, '\0');
    if t.Err? then Some(Err(t.error))
    else if sizeQuery.countOutput == 0 then Some(Ok(""))
    else if '\0' !in t.value then None
    else
      var name := UpToNul(t.value);
      UpToNulWritten(t.value, fillCall.written);
      Some(Ok(name))
  }

  /** The read stays inside the buffer exactly when the runtime leaves a NUL in it: it
      writes fewer characters than the buffer holds, or a NUL among the first ones. */
  lemma LocalizedNameDefined(sizeQuery: Reply<char>, fillCall: Reply<char>)
    requires !Failed(sizeQuery.result) && !Failed(fillCall.result) && sizeQuery.countOutput != 0
    ensures (GetInputSourceLocalizedName(sizeQuery, fillCall).Some?) <==>
              (|fillCall.written| < sizeQuery.countOutput
               || exists i :: 0 <= i < sizeQuery.countOutput && i < |fillCall.written| && fillCall.written[i] == '\0')
  {
    var buffer := TwoCall(sizeQuery, fillCall, '\0').value;
    if |fillCall.written| < sizeQuery.countOutput {
      assert buffer[sizeQuery.countOutput - 1] == '\0';
    }
    if exists i :: 0 <= i < sizeQuery.countOutput && i < |fillCall.written| && fillCall.written[i] == '\0' {
      var i :| 0 <= i < sizeQuery.countOutput && i < |fillCall.written| && fillCall.written[i] == '\0';
      assert buffer[i] == '\0';
    }
    if '\0' in buffer {
      var i :| 0 <= i < |buffer| && buffer[i] == '\0';
      assert i < |fillCall.written| ==> fillCall.written[i] == '\0';
    }
  }

  /** A runtime that reports three characters and fills all three without a NUL makes
      the code read past the buffer. */
  lemma LocalizedNameUnterminated()
    ensures GetInputSourceLocalizedName(Reply(0, 3, []), Reply(0, 3, ['a', 'b', 'c'])) == None
  {
    var buffer := TwoCall(Reply(0, 3, []), Reply(0, 3, ['a', 'b', 'c']), '\0').value;
    assert buffer == ['a', 'b', 'c'];
  }

  /** A runtime that writes a NUL-terminated name into a buffer of the size it reported
      yields that name. */
  lemma LocalizedNameRoundTrip(sizeQuery: Reply<char>, fillCall: Reply<char>, name: string)
    requires !Failed(sizeQuery.result) && !Failed(fillCall.result) && '\0' !in name
    requires sizeQuery.countOutput == |name| + 1 && fillCall.written == name + ['\0']
    ensures GetInputSourceLocalizedName(sizeQuery, fillCall) == Some(Ok(name))
  {
    var buffer := TwoCall(sizeQuery, fillCall, '\0').value;
    assert buffer == name + ['\0'] + [] by {
      forall i | 0 <= i < |buffer| ensures buffer[i] == (name + ['\0'])[i] {
      }
    }
    UpToNulTerminated(name, []);
  }

  // ---------------------------------------------------------------------------
  // ListActionsLocalized
  // ---------------------------------------------------------------------------

  /** Every bound source of the actions, in the order the actions and their sources
      are visited. */
  function AllSources(actions: seq<XrAction>, sourcesOf: XrAction -> seq<XrPath>): seq<XrPath>
    decreases |actions|
  {
    if actions == [] then []
    else AllSources(actions[..|actions| - 1], sourcesOf) + sourcesOf(actions[|actions| - 1])
  }

  /** The distinct names of `names`, in the order each is first seen. */
  function FirstSeen(names: seq<string>): (g: seq<string>)
    ensures forall x :: x in g <==> x in names
    decreases |names|
  {
    if names == [] then []
    else
      var init := FirstSeen(names[..|names| - 1]);
      var last := names[|names| - 1];
      assert forall x :: x in names <==> x in names[..|names| - 1] || x == last by {
        assert names == names[..|names| - 1] + [last];
      }
      if last in init then init else init + [last]
  }

  /** The localized user-path-and-profile name of each source path. */
  function Names(paths: seq<XrPath>, profileOf: XrPath -> string): (r: seq<string>)
    ensures |r| == |paths|
  {
    seq(|paths|, i requires 0 <= i < |paths| => profileOf(paths[i]))
  }

  /** The paths of one group, in encounter order, duplicates kept. */
  function PathsIn(paths: seq<XrPath>, profileOf: XrPath -> string, name: string): seq<XrPath>
    decreases |paths|
  {
    if paths == [] then []
    else
      var init := PathsIn(paths[..|paths| - 1], profileOf, name);
      var last := paths[|paths| - 1];
      if profileOf(last) == name then init + [last] else init
  }

  /** The parts joined with `delimiter` between neighbours, none before or after. */
  function Join(parts: seq<string>, delimiter: string): string
    decreases |parts|
  {
    if parts == [] then ""
    else if |parts| == 1 then parts[0]
    else Join(parts[..|parts| - 1], delimiter) + delimiter + parts[|parts| - 1]
  }

  /** One group: its name, the suffix, then its components joined with the action delimiter. */
  function Group(name: string, paths: seq<XrPath>, profileOf: XrPath -> string, componentOf: XrPath -> string,
                 actionDelimiter: string, pathSuffix: string): string
  {
    name + pathSuffix + Join(Components(PathsIn(paths, profileOf, name), componentOf), actionDelimiter)
  }

  /** The groups of a list of names, rendered. */
  function Groups(names: seq<string>, paths: seq<XrPath>, profileOf: XrPath -> string, componentOf: XrPath -> string,
                  actionDelimiter: string, pathSuffix: string): (r: seq<string>)
    ensures |r| == |names|
  {
    seq(|names|, i requires 0 <= i < |names| => Group(names[i], paths, profileOf, componentOf, actionDelimiter, pathSuffix))
  }

  /** What ListActionsLocalized returns. */
  function Listing(actions: seq<XrAction>, sourcesOf: XrAction -> seq<XrPath>, profileOf: XrPath -> string,
                   componentOf: XrPath -> string, actionDelimiter: string, pathDelimiter: string, pathSuffix: string): string
  {
    var paths := AllSources(actions, sourcesOf);
    Join(Groups(FirstSeen(Names(paths, profileOf)), paths, profileOf, componentOf, actionDelimiter, pathSuffix), pathDelimiter)
  }

  /** The position of the first occurrence of `x`. */
  function IndexOf(s: seq<string>, x: string): (i: nat)
    requires x in s
    ensures i < |s| && s[i] == x && x !in s[..i]
  {
    if s[0] == x then 0 else 1 + IndexOf(s[1..], x)
  }

  lemma {:induction false} IndexOfSnoc(s: seq<string>, y: string, x: string)
    requires x in s
    ensures IndexOf(s + [y], x) == IndexOf(s, x)
  {
    if s[0] != x {
      assert (s + [y])[1..] == s[1..] + [y];
      IndexOfSnoc(s[1..], y, x);
    }
  }

  /** Groups appear once each, in the order their name is first seen. */
  lemma {:induction false} FirstSeenOrder(names: seq<string>)
    ensures forall i, j :: 0 <= i < j < |FirstSeen(names)| ==> FirstSeen(names)[i] != FirstSeen(names)[j]
    ensures forall i, j :: 0 <= i < j < |FirstSeen(names)| ==>
              IndexOf(names, FirstSeen(names)[i]) < IndexOf(names, FirstSeen(names)[j])
    decreases |names|
  {
    if names != [] {
      var prefix := names[..|names| - 1];
      var last := names[|names| - 1];
      FirstSeenOrder(prefix);
      var g := FirstSeen(names);
      assert names == prefix + [last];
      forall x | x in FirstSeen(prefix)
        ensures IndexOf(names, x) == IndexOf(prefix, x)
      {
        IndexOfSnoc(prefix, last, x);
      }
      if last !in FirstSeen(prefix) {
        assert last !in prefix;
        assert IndexOf(names, last) == |prefix| by {
          assert names[|prefix|] == last && last !in names[..|prefix|];
        }
      }
    }
  }

  /** Splitting the paths by name loses none and adds none: together the groups hold
      each path as often as it was encountered. */
  function AllGroups(names: seq<string>, paths: seq<XrPath>, profileOf: XrPath -> string): multiset<XrPath>
    decreases |names|
  {
    if names == [] then multiset{}
    else AllGroups(names[..|names| - 1], paths, profileOf) + multiset(PathsIn(paths, profileOf, names[|names| - 1]))
  }

  /** A group whose name no path has is empty. */
  lemma {:induction false} PathsInAbsent(paths: seq<XrPath>, profileOf: XrPath -> string, name: string)
    requires name !in Names(paths, profileOf)
    ensures PathsIn(paths, profileOf, name) == []
    decreases |paths|
  {
    if paths != [] {
      var init := paths[..|paths| - 1];
      assert Names(init, profileOf) == Names(paths, profileOf)[..|init|];
      assert profileOf(paths[|paths| - 1]) == Names(paths, profileOf)[|init|];
      PathsInAbsent(init, profileOf, name);
    }
  }

  /** Distinct elements. */
  predicate Distinct(names: seq<string>) {
    forall i, j :: 0 <= i < j < |names| ==> names[i] != names[j]
  }

  /** One more path joins only the group of its own name. */
  lemma {:induction false} AllGroupsSnoc(names: seq<string>, paths: seq<XrPath>, profileOf: XrPath -> string, x: XrPath)
    requires Distinct(names)
    ensures AllGroups(names, paths + [x], profileOf)
              == AllGroups(names, paths, profileOf) + (if profileOf(x) in names then multiset{x} else multiset{})
    decreases |names|
  {
    if names != [] {
      var init := names[..|names| - 1];
      var last := names[|names| - 1];
      AllGroupsSnoc(init, paths, profileOf, x);
      assert (paths + [x])[..|paths|] == paths;
      assert names == init + [last];
      assert last !in init by {
        forall i | 0 <= i < |init| ensures init[i] != last {
          assert names[i] == init[i];
        }
      }
    }
  }

  /** Splitting the paths by name loses none and adds none: together the groups hold
      each path as often as it was encountered. */
  lemma {:induction false} PartitionOfPaths(paths: seq<XrPath>, profileOf: XrPath -> string)
    ensures AllGroups(FirstSeen(Names(paths, profileOf)), paths, profileOf) == multiset(paths)
    decreases |paths|
  {
    if paths != [] {
      var p := paths[..|paths| - 1];
      var x := paths[|paths| - 1];
      assert paths == p + [x];
      PartitionOfPaths(p, profileOf);
      var names := Names(paths, profileOf);
      assert names[..|p|] == Names(p, profileOf);
      var g := FirstSeen(Names(p, profileOf));
      FirstSeenOrder(Names(p, profileOf));
      AllGroupsSnoc(g, p, profileOf, x);
      if profileOf(x) !in g {
        PathsInAbsent(p, profileOf, profileOf(x));
        assert FirstSeen(names) == g + [profileOf(x)];
        assert (g + [profileOf(x)])[..|g|] == g;
      }
    }
  }

  /** In the delimiter-joined text the parts take their own length plus one delimiter
      between each pair of neighbours. */
  lemma {:induction false} JoinLength(parts: seq<string>, delimiter: string)
    ensures |parts| > 0 ==> |Join(parts, delimiter)| == TotalLength(parts) + (|parts| - 1) * |delimiter|
    ensures |parts| == 0 ==> Join(parts, delimiter) == ""
    decreases |parts|
  {
    if |parts| > 1 {
      JoinLength(parts[..|parts| - 1], delimiter);
    }
  }

  /** Each part of `ps` preceded by the delimiter, read from the front. */
  function DelimitedEach(ps: seq<string>, delimiter: string): string
    decreases |ps|
  {
    if ps == [] then "" else delimiter + ps[0] + DelimitedEach(ps[1..], delimiter)
  }

  /** The delimiter-joined text written front to back: the first part, then every
      other part preceded by one delimiter. */
  function JoinFromFront(parts: seq<string>, delimiter: string): string {
    if parts == [] then "" else parts[0] + DelimitedEach(parts[1..], delimiter)
  }

  lemma {:induction false} DelimitedEachSnoc(ps: seq<string>, p: string, delimiter: string)
    ensures DelimitedEach(ps + [p], delimiter) == DelimitedEach(ps, delimiter) + delimiter + p
    decreases |ps|
  {
    if ps == [] {
      assert [p][1..] == [];
    } else {
      assert (ps + [p])[1..] == ps[1..] + [p];
      DelimitedEachSnoc(ps[1..], p, delimiter);
    }
  }

  /** The joined text, built by appending at the back as the source's stream does, is
      the first part followed by each later part with one delimiter before it; so it
      starts with the first part and ends with the last. */
  lemma {:induction false} JoinContents(parts: seq<string>, delimiter: string)
    ensures Join(parts, delimiter) == JoinFromFront(parts, delimiter)
    ensures |parts| > 0 ==> |parts[0]| <= |Join(parts, delimiter)| && Join(parts, delimiter)[..|parts[0]|] == parts[0]
    ensures |parts| > 0 ==>
              var last := parts[|parts| - 1];
              |last| <= |Join(parts, delimiter)| && Join(parts, delimiter)[|Join(parts, delimiter)| - |last|..] == last
    decreases |parts|
  {
    if |parts| > 1 {
      var init := parts[..|parts| - 1];
      JoinContents(init, delimiter);
      DelimitedEachSnoc(init[1..], parts[|parts| - 1], delimiter);
      assert init[1..] + [parts[|parts| - 1]] == parts[1..];
    } else if |parts| == 1 {
      assert parts[1..] == [];
    }
  }

  function TotalLength(parts: seq<string>): nat
    decreases |parts|
  {
    if parts == [] then 0 else TotalLength(parts[..|parts| - 1]) + |parts[|parts| - 1]|
  }

  /** Actions without bound sources are listed as the empty string. */
  lemma NoSourcesListNothing(actions: seq<XrAction>, sourcesOf: XrAction -> seq<XrPath>, profileOf: XrPath -> string,
                             componentOf: XrPath -> string, actionDelimiter: string, pathDelimiter: string, pathSuffix: string)
    requires AllSources(actions, sourcesOf) == []
    ensures Listing(actions, sourcesOf, profileOf, componentOf, actionDelimiter, pathDelimiter, pathSuffix) == ""
  {
  }

  /** Adding a part adds a delimiter before it unless it is the first. */
  lemma JoinSnoc(parts: seq<string>, part: string, delimiter: string)
    ensures Join(parts + [part], delimiter) == if parts == [] then part else Join(parts, delimiter) + delimiter + part
  {
    assert (parts + [part])[..|parts|] == parts;
  }

  /** The component names of a group's paths. */
  function Components(paths: seq<XrPath>, componentOf: XrPath -> string): (r: seq<string>)
    ensures |r| == |paths|
  {
    seq(|paths|, j requires 0 <= j < |paths| => componentOf(paths[j]))
  }

  /** One more source path: its group gains the path, a new name opens a group at the end. */
  lemma GroupStep(seen: seq<XrPath>, profileOf: XrPath -> string, path: XrPath)
    ensures FirstSeen(Names(seen + [path], profileOf))
              == if profileOf(path) in FirstSeen(Names(seen, profileOf)) then FirstSeen(Names(seen, profileOf))
                 else FirstSeen(Names(seen, profileOf)) + [profileOf(path)]
    ensures forall n :: PathsIn(seen + [path], profileOf, n)
              == if n == profileOf(path) then PathsIn(seen, profileOf, n) + [path] else PathsIn(seen, profileOf, n)
  {
    assert (seen + [path])[..|seen|] == seen;
    assert Names(seen + [path], profileOf)[..|seen|] == Names(seen, profileOf);
  }

  /** The grouping state of ListActionsLocalized after the paths `seen`: the names in
      first-seen order, and the paths of each name. */
  ghost predicate GroupedAs(order: seq<string>, byName: map<string, seq<XrPath>>, seen: seq<XrPath>, profileOf: XrPath -> string) {
    && order == FirstSeen(Names(seen, profileOf))
    && (forall n :: n in byName <==> n in order)
    && (forall n :: n in byName ==> byName[n] == PathsIn(seen, profileOf, n) && |byName[n]| > 0)
  }

  /** The body of the source loop: `operator[]` on the group of the path's name, which
      is new (and its name recorded) when it has no paths yet. */
  method AddSource(order: seq<string>, byName: map<string, seq<XrPath>>, ghost seen: seq<XrPath>,
                   profileOf: XrPath -> string, path: XrPath)
    returns (order': seq<string>, byName': map<string, seq<XrPath>>)
    requires GroupedAs(order, byName, seen, profileOf)
    ensures GroupedAs(order', byName', seen + [path], profileOf)
  {
    var name := profileOf(path);
    GroupStep(seen, profileOf, path);
    if name !in byName {
      PathsInAbsent(seen, profileOf, name);
    }
    var paths := if name in byName then byName[name] else [];
    order' := order;
    if |paths| == 0 {
      order' := order + [name];
    }
    byName' := byName[name := paths + [path]];
  }

  /** The inner loop of the first loop of ListActionsLocalized: the bound sources of one
      action, added one by one. */
  method AddSources(order: seq<string>, byName: map<string, seq<XrPath>>, ghost seen: seq<XrPath>,
                    profileOf: XrPath -> string, paths: seq<XrPath>)
    returns (order': seq<string>, byName': map<string, seq<XrPath>>)
    requires GroupedAs(order, byName, seen, profileOf)
    ensures GroupedAs(order', byName', seen + paths, profileOf)
  {
    order', byName' := order, byName;
    assert seen + paths[..0] == seen;
    for j := 0 to |paths|
      invariant GroupedAs(order', byName', seen + paths[..j], profileOf)
    {
      order', byName' := AddSource(order', byName', seen + paths[..j], profileOf, paths[j]);
      assert seen + paths[..j + 1] == (seen + paths[..j]) + [paths[j]];
    }
    assert paths[..|paths|] == paths;
  }

  /** The first loop of ListActionsLocalized: the bound sources of every action, grouped. */
  method GroupSources(actions: seq<XrAction>, sourcesOf: XrAction -> seq<XrPath>, profileOf: XrPath -> string)
    returns (order: seq<string>, byName: map<string, seq<XrPath>>)
    ensures GroupedAs(order, byName, AllSources(actions, sourcesOf), profileOf)
  {
    order := [];
    byName := map[];
    ghost var seen: seq<XrPath> := [];
    for a := 0 to |actions|
      invariant seen == AllSources(actions[..a], sourcesOf)
      invariant GroupedAs(order, byName, seen, profileOf)
    {
      var boundSources := sourcesOf(actions[a]);
      order, byName := AddSources(order, byName, seen, profileOf, boundSources);
      seen := seen + boundSources;
      assert actions[..a + 1][..a] == actions[..a];
    }
    assert actions[..|actions|] == actions;
  }

  /** The inner output loop: the group's name, the suffix and its components with the
      action delimiter between neighbours. */
  method RenderGroup(name: string, paths: seq<XrPath>, componentOf: XrPath -> string,
                     actionDelimiter: string, pathSuffix: string) returns (text: string)
    ensures text == name + pathSuffix + Join(Components(paths, componentOf), actionDelimiter)
  {
    var components := Components(paths, componentOf);
    var joined := "";
    var firstComponent := true;
    for j := 0 to |paths|
      invariant firstComponent <==> j == 0
      invariant joined == Join(components[..j], actionDelimiter)
    {
      JoinSnoc(components[..j], componentOf(paths[j]), actionDelimiter);
      assert components[..j + 1] == components[..j] + [componentOf(paths[j])];
      if !firstComponent {
        joined := joined + actionDelimiter;
      }
      firstComponent := false;
      joined := joined + componentOf(paths[j]);
    }
    assert components[..|paths|] == components;
    text := name + pathSuffix + joined;
  }

  /** ListActionsLocalized: the bound sources of all actions grouped by their localized
      user path and interaction profile, groups in first-seen order joined by
      `pathDelimiter`, each group rendered as its name, `pathSuffix` and the localized
      component names of its paths joined by `actionDelimiter`. */
  method ListActionsLocalized(actions: seq<XrAction>, sourcesOf: XrAction -> seq<XrPath>, profileOf: XrPath -> string,
                              componentOf: XrPath -> string, actionDelimiter: string, pathDelimiter: string,
                              pathSuffix: string) returns (listing: string)
    ensures listing == Listing(actions, sourcesOf, profileOf, componentOf, actionDelimiter, pathDelimiter, pathSuffix)
  {
    var order, byName := GroupSources(actions, sourcesOf, profileOf);
    ghost var seen := AllSources(actions, sourcesOf);
    ghost var groups := Groups(order, seen, profileOf, componentOf, actionDelimiter, pathSuffix);
    listing := "";
    var firstPathAndProfile := true;
    for i := 0 to |order|
      invariant firstPathAndProfile <==> i == 0
      invariant listing == Join(groups[..i], pathDelimiter)
    {
      JoinSnoc(groups[..i], groups[i], pathDelimiter);
      assert groups[..i + 1] == groups[..i] + [groups[i]];
      if !firstPathAndProfile {
        listing := listing + pathDelimiter;
      }
      firstPathAndProfile := false;
      var text := RenderGroup(order[i], byName[order[i]], componentOf, actionDelimiter, pathSuffix);
      assert text == groups[i] by {
        assert byName[order[i]] == PathsIn(seen, profileOf, order[i]);
      }
      listing := listing + text;
    }
    assert groups[..|order|] == groups;
  }

  // ---------------------------------------------------------------------------
  // DisplayMessage
  // ---------------------------------------------------------------------------

  const TitleFontHeightPixels: nat := 40
  const TitleFontPaddingPixels: nat := 2
  const TitleBorderPixels: nat := 2
  const InsetPixels: nat := TitleBorderPixels + TitleFontPaddingPixels

  /** The RGBA image DisplayMessage makes: its size and the text drawn on it, if any
      (with the title background and border drawn only around a text). */
  datatype MessageImage = MessageImage(width: nat, height: nat, text: Option<string>)

  /** The image made for a message: 768 pixels wide, five title lines high, blank for
      the empty message. */
  function MessageImageFor(message: string): (image: MessageImage)
    ensures image.width == 768 && image.height == 240
    ensures image.text.Some? <==> message != ""
    ensures image.text.Some? ==> image.text.value == message
  {
    MessageImage(768, (TitleFontHeightPixels + InsetPixels * 2) * 5, if message == "" then None else Some(message))
  }

  /** The part of ActionLayerManager that DisplayMessage updates, with the messages
      reported so far. */
  datatype MessageState = MessageState(lastMessage: string, displayMessageImage: Option<MessageImage>, reported: seq<string>)

  /** DisplayMessage: a message equal to the last one changes nothing; any other one
      is reported (unless empty), gets a fresh image and becomes the last message. */
  function Display(s: MessageState, message: string): MessageState {
    if message == s.lastMessage then s
    else MessageState(message, Some(MessageImageFor(message)), s.reported + if message == "" then [] else [message])
  }

  /** Displaying the same message twice is displaying it once. */
  lemma DisplayIdempotent(s: MessageState, message: string)
    ensures Display(Display(s, message), message) == Display(s, message)
    ensures Display(s, message).lastMessage == message
  {
  }

  /** A new message replaces the image and draws its text only when it is not empty; an
      empty message is never reported. */
  lemma DisplayEffect(s: MessageState, message: string)
    requires message != s.lastMessage
    ensures Display(s, message).displayMessageImage.Some?
    ensures Display(s, message).displayMessageImage.value.text.Some? <==> message != ""
    ensures message == "" ==> Display(s, message).reported == s.reported
    ensures message != "" ==> Display(s, message).reported == s.reported + [message]
  {
  }

  /** The state of Conformance::ActionLayerManager that DisplayMessage works on. */
  class ActionLayerManager {
    var lastMessage: string
    var displayMessageImage: Option<MessageImage>
    ghost var reported: seq<string>

    ghost function State(): MessageState
      reads this
    {
      MessageState(lastMessage, displayMessageImage, reported)
    }

    constructor ()
      ensures State() == MessageState("", None, [])
    {
      lastMessage := "";
      displayMessageImage := None;
      reported := [];
    }

    method DisplayMessage(message: string)
      modifies this
      ensures State() == Display(old(State()), message)
    {
      if message == lastMessage {
        return;
      }
      if message != "" {
        reported := reported + [message];
      }
      var image := MessageImage(768, (TitleFontHeightPixels + InsetPixels * 2) * 5, None);
      if message != "" {
        image := image.(text := Some(message));
      }
      displayMessageImage := Some(image);
      lastMessage := message;
    }
  }

  // ---------------------------------------------------------------------------
  // WaitForLocatability
  // ---------------------------------------------------------------------------

  const XR_SPACE_LOCATION_ORIENTATION_VALID_BIT: bv64 := 0x1
  const XR_SPACE_LOCATION_POSITION_VALID_BIT: bv64 := 0x2

  /** The per-frame test of WaitForLocatability: whether the located space is
      locatable, meaning both its orientation and its position are valid, as
      expected. */
  predicate IsExpected(locationFlags: bv64, expectLocatability: bool): (r: bool)
    ensures r <==> (expectLocatability <==> (locationFlags & XR_SPACE_LOCATION_ORIENTATION_VALID_BIT != 0
                                            && locationFlags & XR_SPACE_LOCATION_POSITION_VALID_BIT != 0))
  {
    var locatableFlags := XR_SPACE_LOCATION_ORIENTATION_VALID_BIT | XR_SPACE_LOCATION_POSITION_VALID_BIT;
    expectLocatability == (locationFlags & locatableFlags == locatableFlags)
  }
}
