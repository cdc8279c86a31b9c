/** Reading one metric for many applications with one grouped query against reading it application by application
    (metrics_prometheus.go). Sample values are integers here. */
module BatchMetrics {
  import opened Text

  datatype App = App(id: string, name: string)

  /** Values by timestamp, in seconds since the epoch. */
  type Samples = map<nat, int>

  /** What a grouped query answers: its groups, by label value, with the samples of each. */
  datatype Answer = Failed | NoSamples | Found(groups: map<string, Samples>)

  /** A grouped query with its answer; the groups are pods, or values of an application label. */
  datatype Query = Query(fromPod: bool, answer: Answer)

  // ---------------------------------------------------------------- pod names

  /** [a-z0-9]+ */
  predicate IsSegment(s: string) {
    s != "" && forall c :: c in s ==> 'a' <= c <= 'z' || '0' <= c <= '9'
  }

  lemma SegmentCodes(s: string)
    ensures IsSegment(s) <==> |s| > 0 && forall k :: 0 <= k < |s| ==> 97 <= s[k] as int <= 122 || 48 <= s[k] as int <= 57
  {
    assert forall k :: 0 <= k < |s| ==> s[k] in s;
  }

  /** [a-z0-9]+(?:-[a-z0-9]+)? */
  predicate IsPodSuffix(s: string) {
    IsSegment(s) || exists k | 0 <= k < |s| :: s[k] == '-' && IsSegment(s[..k]) && IsSegment(s[k + 1..])
  }

  predicate PodMatches(pod: string, name: string) {
    var p := TrimSpace(pod);
    && |p| > |name| && p[..|name|] == name && p[|name|] == '-' && IsPodSuffix(p[|name| + 1..])
  }

  /** The pods of an application: its name, a dash, and one or two dash-separated words of lower-case letters and digits. */
  lemma PodShape(pod: string, name: string)
    ensures PodMatches(pod, name) <==>
            || (exists s :: TrimSpace(pod) == name + "-" + s && IsSegment(s))
            || (exists a, b :: TrimSpace(pod) == name + "-" + (a + "-" + b) && IsSegment(a) && IsSegment(b))
  {
    var p := TrimSpace(pod);
    hide TrimSpace, IsSegment, IsPodSuffix, PodMatches;
    MatchesBySuffix(pod, name);
    if s :| p == name + "-" + s && IsPodSuffix(s) { SuffixWords(s); }
    if s :| p == name + "-" + s && IsSegment(s) { OneWord(s); }
    if a, b :| p == name + "-" + (a + "-" + b) && IsSegment(a) && IsSegment(b) { TwoWords(a, b); }
  }

  lemma MatchesBySuffix(pod: string, name: string)
    ensures PodMatches(pod, name) <==> exists s :: TrimSpace(pod) == name + "-" + s && IsPodSuffix(s)
  {
    var p := TrimSpace(pod);
    hide TrimSpace, IsPodSuffix;
    if PodMatches(pod, name) {
      assert p == name + "-" + p[|name| + 1..];
    }
    if s :| p == name + "-" + s && IsPodSuffix(s) {
      assert p[|name| + 1..] == s && p[..|name|] == name && p[|name|] == '-';
    }
  }

  lemma OneWord(s: string)
    requires IsSegment(s)
    ensures IsPodSuffix(s)
  {
  }

  lemma TwoWords(a: string, b: string)
    requires IsSegment(a) && IsSegment(b)
    ensures IsPodSuffix(a + "-" + b)
  {
    hide IsSegment;
    var s := a + "-" + b;
    assert s[|a|] == '-' && s[..|a|] == a && s[|a| + 1..] == b;
  }

  lemma SuffixWords(s: string)
    requires IsPodSuffix(s)
    ensures IsSegment(s) || exists a, b :: s == a + "-" + b && IsSegment(a) && IsSegment(b)
  {
    hide IsSegment;
    if !IsSegment(s) {
      var k :| 0 <= k < |s| && s[k] == '-' && IsSegment(s[..k]) && IsSegment(s[k + 1..]);
      assert s == s[..k] + "-" + s[k + 1..];
    }
  }

  /** One name is the other with a dash and one more segment. Pod names are trimmed, so no pod matches a name that starts
      with a blank. */
  predicate Extends(longer: string, shorter: string) {
    && |longer| > |shorter| && longer[..|shorter|] == shorter && longer[|shorter|] == '-' && !IsSpace(longer[0])
    && IsSegment(longer[|shorter| + 1..])
  }

  lemma TwoSegments(s: string, k: nat)
    requires IsPodSuffix(s) && k < |s| && s[k] == '-'
    ensures IsSegment(s[..k]) && IsSegment(s[k + 1..])
  {
    assert !IsSegment(s) by { assert s[k] in s; }
    var j :| 0 <= j < |s| && s[j] == '-' && IsSegment(s[..j]) && IsSegment(s[j + 1..]);
    assert forall i :: j < i < |s| ==> s[i] in s[j + 1..];
    assert forall i :: 0 <= i < j ==> s[i] in s[..j];
  }

  /** A pod that matches two names shows one to extend the other. */
  lemma MatchingTwiceExtends(pod: string, a: string, b: string)
    requires PodMatches(pod, a) && PodMatches(pod, b) && |a| < |b|
    ensures Extends(b, a)
  {
    var p := TrimSpace(pod);
    var sa, k := p[|a| + 1..], |b| - |a| - 1;
    assert b[|a|] == p[|a|];
    assert sa[k] == p[|b|];
    TwoSegments(sa, k);
    assert sa[..k] == b[|a| + 1..];
    var _, _ := TrimSpaceCuts(pod);
    assert b[0] == p[0];
  }

  /** Two different names can claim one pod exactly when one extends the other. */
  lemma AmbiguousPods(a: string, b: string)
    requires a != b
    ensures (exists pod :: PodMatches(pod, a) && PodMatches(pod, b)) <==> Extends(a, b) || Extends(b, a)
  {
    if Extends(a, b) { ExtensionIsAmbiguous(a, b); }
    if Extends(b, a) { ExtensionIsAmbiguous(b, a); }
    forall pod | PodMatches(pod, a) && PodMatches(pod, b) ensures Extends(a, b) || Extends(b, a) {
      if |a| < |b| { MatchingTwiceExtends(pod, a, b); }
      else if |b| < |a| { MatchingTwiceExtends(pod, b, a); }
    }
  }

  lemma ExtensionIsAmbiguous(longer: string, shorter: string)
    requires Extends(longer, shorter)
    ensures PodMatches(longer + "-x", longer) && PodMatches(longer + "-x", shorter)
  {
    var pod := longer + "-x";
    assert pod[|pod| - 1] == 'x' && pod[0] == longer[0];
    TrimSpaceFixed(pod);
    assert pod[..|longer|] == longer && pod[|longer| + 1..] == "x";
    var n := |shorter|;
    var suffix, k := pod[n + 1..], |longer| - n - 1;
    assert pod[..n] == longer[..n] == shorter;
    assert suffix[k] == '-' && suffix[..k] == longer[n + 1..] && suffix[k + 1..] == "x";
  }

  // ---------------------------------------------------------------- whose group it is

  /** appByName: the last record with the name. */
  function AppByName(records: seq<App>, name: string): Option<string> {
    if records == [] then None
    else if records[|records| - 1].name == name then Some(records[|records| - 1].id)
    else AppByName(records[..|records| - 1], name)
  }

  /** applicationIDForPod: the first record whose name the pod matches. */
  function AppForPod(records: seq<App>, pod: string): Option<string> {
    if records == [] then None
    else if PodMatches(pod, records[0].name) then Some(records[0].id)
    else AppForPod(records[1..], pod)
  }

  function Owner(records: seq<App>, fromPod: bool, g: string): Option<string> {
    if fromPod then AppForPod(records, g) else AppByName(records, g)
  }

  /** A pod goes to the first application in the list whose name it matches. */
  lemma {:induction false} FirstMatchOwnsPod(records: seq<App>, pod: string, k: nat)
    ensures k < |records| && PodMatches(pod, records[k].name) && (forall j :: 0 <= j < k ==> !PodMatches(pod, records[j].name)) ==>
              AppForPod(records, pod) == Some(records[k].id)
    ensures (forall j :: 0 <= j < |records| ==> !PodMatches(pod, records[j].name)) ==> AppForPod(records, pod) == None
  {
    hide PodMatches;
    if records != [] { FirstMatchOwnsPod(records[1..], pod, if k > 0 then k - 1 else 0); }
  }

  /** A label value goes to the last application in the list that has it as its name. */
  lemma {:induction false} LastNameOwnsGroup(records: seq<App>, name: string, k: nat)
    ensures k < |records| && records[k].name == name && (forall j :: k < j < |records| ==> records[j].name != name) ==>
              AppByName(records, name) == Some(records[k].id)
    ensures (forall j :: 0 <= j < |records| ==> records[j].name != name) ==> AppByName(records, name) == None
  {
    if records != [] { LastNameOwnsGroup(records[..|records| - 1], name, k); }
  }

  /** The application's own query would include this group. */
  predicate IsOwn(name: string, fromPod: bool, g: string) {
    if fromPod then PodMatches(g, name) else g == name
  }

  // ---------------------------------------------------------------- sums of samples

  function ValueAt(s: Samples, t: nat): int {
    if t in s then s[t] else 0
  }

  /** mergeMetricValueMap on two sample maps. */
  function Merged(a: Samples, b: Samples): Samples {
    map t | t in a.Keys + b.Keys :: ValueAt(a, t) + ValueAt(b, t)
  }

  ghost function SumAt(groups: map<string, Samples>, picked: set<string>, t: nat): int
    requires picked <= groups.Keys
    decreases |picked|
  {
    if picked == {} then 0
    else
      var g :| g in picked;
      ValueAt(groups[g], t) + SumAt(groups, picked - {g}, t)
  }

  lemma {:induction false} SumWithout(groups: map<string, Samples>, picked: set<string>, g: string, t: nat)
    requires picked <= groups.Keys && g in picked
    ensures SumAt(groups, picked, t) == ValueAt(groups[g], t) + SumAt(groups, picked - {g}, t)
    decreases |picked|
  {
    var h :| h in picked && SumAt(groups, picked, t) == ValueAt(groups[h], t) + SumAt(groups, picked - {h}, t);
    if h != g {
      SumWithout(groups, picked - {h}, g, t);
      SumWithout(groups, picked - {g}, h, t);
      assert picked - {h} - {g} == picked - {g} - {h};
    }
  }

  /** The pointwise sum of some groups. */
  ghost function Total(groups: map<string, Samples>, picked: set<string>): Samples
    requires picked <= groups.Keys
  {
    map t | t in (set g, t | g in picked && t in groups[g] :: t) :: SumAt(groups, picked, t)
  }

  lemma TotalWithOneMore(groups: map<string, Samples>, picked: set<string>, g: string)
    requires picked <= groups.Keys && g in groups && g !in picked
    ensures Total(groups, picked + {g}) == Merged(Total(groups, picked), groups[g])
  {
    var more, merged := Total(groups, picked + {g}), Merged(Total(groups, picked), groups[g]);
    assert more.Keys == merged.Keys;
    forall t | t in more ensures more[t] == merged[t] {
      SumWithout(groups, picked + {g}, g, t);
      assert picked + {g} - {g} == picked;
      if t !in Total(groups, picked) { SumOfNone(groups, picked, t); }
    }
  }

  lemma {:induction false} SumOfNone(groups: map<string, Samples>, picked: set<string>, t: nat)
    requires picked <= groups.Keys && forall g :: g in picked ==> t !in groups[g]
    ensures SumAt(groups, picked, t) == 0
    decreases |picked|
  {
    if picked != {} {
      var g :| g in picked;
      SumWithout(groups, picked, g, t);
      SumOfNone(groups, picked - {g}, t);
    }
  }

  // ---------------------------------------------------------------- the batch, specified

  function GroupsOf(records: seq<App>, fromPod: bool, groups: map<string, Samples>, id: string): (own: set<string>)
    ensures own <= groups.Keys
  {
    set g | g in groups && groups[g] != map[] && Owner(records, fromPod, g) == Some(id)
  }

  function Owners(records: seq<App>, fromPod: bool, groups: map<string, Samples>): set<string> {
    set g | g in groups && groups[g] != map[] && Owner(records, fromPod, g).Some? :: Owner(records, fromPod, g).value
  }

  /** One grouped query: every application without values gets the total of the groups it owns. */
  ghost function AfterQuery(values: map<string, Samples>, records: seq<App>, fromPod: bool, groups: map<string, Samples>):
      map<string, Samples>
  {
    values + map id | id in Owners(records, fromPod, groups) - values.Keys :: Total(groups, GroupsOf(records, fromPod, groups, id))
  }

  /** The queries in turn until every application has values; None if one fails. */
  ghost function Batched(values: map<string, Samples>, records: seq<App>, queries: seq<Query>): Option<map<string, Samples>>
    decreases |queries|
  {
    if |queries| == 0 then Some(values)
    else
      match queries[0].answer
      case Failed => None
      case NoSamples => Batched(values, records, queries[1..])
      case Found(groups) =>
        var next := AfterQuery(values, records, queries[0].fromPod, groups);
        if |next| == |records| then Some(next) else Batched(next, records, queries[1..])
  }

  /** The batch fails exactly if a query fails before every application has values; later queries are not sent. */
  lemma {:induction false} BatchFailsExactly(values: map<string, Samples>, records: seq<App>, queries: seq<Query>)
    requires |values| != |records|
    ensures Batched(values, records, queries) == None <==>
            exists i {:trigger queries[i]} :: 0 <= i < |queries| && queries[i].answer.Failed?
                                               && Batched(values, records, queries[..i]).Some?
                                               && |Batched(values, records, queries[..i]).value| != |records|
    decreases |queries|
  {
    hide AfterQuery;
    if |queries| > 0 {
      var rest := queries[1..];
      var next := match queries[0].answer
                  case Found(groups) => AfterQuery(values, records, queries[0].fromPod, groups)
                  case _ => values;
      assert queries[..0] == [];
      forall i | 0 < i <= |queries|
        ensures Batched(values, records, queries[..i]) ==
                if queries[0].answer.Failed? then None else if |next| == |records| then Some(next)
                else Batched(next, records, rest[..i - 1])
      {
        assert queries[..i][0] == queries[0] && queries[..i][1..] == rest[..i - 1];
      }
      if |next| != |records| { BatchFailsExactly(next, records, rest); }
      assert forall i :: 0 < i < |queries| ==> queries[i] == rest[i - 1];
    }
  }

  // ---------------------------------------------------------------- the batch, as it runs

  lemma MergedPointwise(a: Samples, b: Samples)
    ensures var merged := Merged(a, b);
            && merged.Keys == a.Keys + b.Keys
            && forall t :: t in merged ==> merged[t] == (if t in a then a[t] else 0) + (if t in b then b[t] else 0)
  {
  }

  method MergeMetricValues(current: Samples, values: Samples) returns (merged: Samples)
    ensures merged == Merged(current, values)
    ensures merged.Keys == current.Keys + values.Keys
    ensures forall t :: t in merged ==>
              merged[t] == (if t in current then current[t] else 0) + (if t in values then values[t] else 0)
  {
    hide Merged;
    merged := current;
    var pending: set<nat> := values.Keys;
    MergedWithNone(current, values);
    while pending != {}
      invariant pending <= values.Keys && merged == Merged(current, values - pending)
      decreases |pending|
    {
      var t :| t in pending;
      MergedWithOneMore(current, values, pending, t);
      merged := merged[t := (if t in merged then merged[t] else 0) + values[t]];
      pending := pending - {t};
    }
    assert values - pending == values;
    MergedPointwise(current, values);
  }

  lemma MergedWithNone(current: Samples, values: Samples)
    ensures Merged(current, values - values.Keys) == current
  {
  }

  lemma MergedWithOneMore(current: Samples, values: Samples, pending: set<nat>, t: nat)
    requires t in pending && pending <= values.Keys
    ensures var merged := Merged(current, values - pending);
            Merged(current, values - (pending - {t})) == merged[t := ValueAt(merged, t) + values[t]]
  {
    var merged, more := Merged(current, values - pending), Merged(current, values - (pending - {t}));
    assert more.Keys == merged.Keys + {t};
  }

  /** The groups seen so far that an application owns. */
  function SeenOf(records: seq<App>, fromPod: bool, groups: map<string, Samples>, seen: set<string>, id: string): (own: set<string>)
    ensures own <= groups.Keys && own <= seen
  {
    GroupsOf(records, fromPod, groups, id) * seen
  }

  /** The values once some of the groups have been looked at. */
  ghost function AfterGroups(values: map<string, Samples>, records: seq<App>, fromPod: bool, groups: map<string, Samples>,
                             seen: set<string>): map<string, Samples>
  {
    values + map id | id in Owners(records, fromPod, groups) - values.Keys && SeenOf(records, fromPod, groups, seen, id) != {} ::
               Total(groups, SeenOf(records, fromPod, groups, seen, id))
  }

  lemma AfterNoGroups(values: map<string, Samples>, records: seq<App>, fromPod: bool, groups: map<string, Samples>)
    ensures AfterGroups(values, records, fromPod, groups, {}) == values
  {
    hide Total, Owners, GroupsOf;
  }

  lemma AfterAllGroups(values: map<string, Samples>, records: seq<App>, fromPod: bool, groups: map<string, Samples>)
    ensures AfterGroups(values, records, fromPod, groups, groups.Keys) == AfterQuery(values, records, fromPod, groups)
  {
    AllSeen(records, fromPod, groups);
    hide Total, Owners, GroupsOf, SeenOf;
  }

  lemma OwnerIsListed(records: seq<App>, fromPod: bool, groups: map<string, Samples>, g: string)
    requires g in groups && groups[g] != map[] && Owner(records, fromPod, g).Some?
    ensures Owner(records, fromPod, g).value in Owners(records, fromPod, groups)
  {
    hide Owner;
  }

  lemma SeenWithOneMore(records: seq<App>, fromPod: bool, groups: map<string, Samples>, seen: set<string>, g: string, id: string)
    requires g in groups
    ensures SeenOf(records, fromPod, groups, seen + {g}, id)
            == SeenOf(records, fromPod, groups, seen, id)
               + if groups[g] != map[] && Owner(records, fromPod, g) == Some(id) then {g} else {}
  {
    hide Owner;
  }

  function SamplesOf(values: map<string, Samples>, id: string): Samples {
    if id in values then values[id] else map[]
  }

  lemma OneMoreGroupAt(values: map<string, Samples>, records: seq<App>, fromPod: bool, groups: map<string, Samples>,
                       seen: set<string>, g: string, id: string)
    requires g in groups && g !in seen
    ensures var now, next := AfterGroups(values, records, fromPod, groups, seen), AfterGroups(values, records, fromPod, groups, seen + {g});
            var gains := groups[g] != map[] && Owner(records, fromPod, g) == Some(id) && id !in values;
            && (id in next <==> id in now || gains)
            && SamplesOf(next, id) == if gains then Merged(SamplesOf(now, id), groups[g]) else SamplesOf(now, id)
  {
    hide Total, Owner, Owners, SeenOf, Merged, GroupsOf;
    SeenWithOneMore(records, fromPod, groups, seen, g, id);
    var before, after := SeenOf(records, fromPod, groups, seen, id), SeenOf(records, fromPod, groups, seen + {g}, id);
    if groups[g] != map[] && Owner(records, fromPod, g) == Some(id) {
      OwnerIsListed(records, fromPod, groups, g);
      TotalOfNone(groups);
      TotalWithOneMore(groups, before, g);
      assert g in after;
    } else {
      assert after == before;
    }
  }

  /** Looking at one more group changes its owner's values only. */
  lemma AfterOneMoreGroup(values: map<string, Samples>, records: seq<App>, fromPod: bool, groups: map<string, Samples>,
                          seen: set<string>, g: string)
    requires g in groups && g !in seen
    ensures var now, next := AfterGroups(values, records, fromPod, groups, seen), AfterGroups(values, records, fromPod, groups, seen + {g});
            var owner := Owner(records, fromPod, g);
            next == if groups[g] == map[] || owner.None? || owner.value in values then now
                    else now[owner.value := Merged(SamplesOf(now, owner.value), groups[g])]
  {
    hide AfterGroups, Owner, Merged;
    var now, next := AfterGroups(values, records, fromPod, groups, seen), AfterGroups(values, records, fromPod, groups, seen + {g});
    var owner := Owner(records, fromPod, g);
    var expected := if groups[g] == map[] || owner.None? || owner.value in values then now
                    else now[owner.value := Merged(SamplesOf(now, owner.value), groups[g])];
    forall id ensures (id in next <==> id in expected) && SamplesOf(next, id) == SamplesOf(expected, id) {
      OneMoreGroupAt(values, records, fromPod, groups, seen, g, id);
    }
    forall id | id in next ensures next[id] == expected[id] {
      assert SamplesOf(next, id) == SamplesOf(expected, id);
    }
  }

  lemma OneLessPending(pending: set<string>, seen: set<string>, g: string)
    requires pending !! seen && g in pending
    ensures pending - {g} !! seen + {g} && (pending - {g}) + (seen + {g}) == pending + seen
  {
  }

  method MergeGroups(values: map<string, Samples>, records: seq<App>, fromPod: bool, groups: map<string, Samples>)
      returns (next: map<string, Samples>)
    ensures next == AfterQuery(values, records, fromPod, groups)
  {
    hide AfterGroups, AfterQuery, Owner, Merged;
    next := values;
    var pending := groups.Keys;
    ghost var seen: set<string> := {};
    AfterNoGroups(values, records, fromPod, groups);
    while pending != {}
      invariant pending !! seen && pending + seen == groups.Keys
      invariant next == AfterGroups(values, records, fromPod, groups, seen)
      decreases |pending|
    {
      var g :| g in pending;
      AfterOneMoreGroup(values, records, fromPod, groups, seen, g);
      OneLessPending(pending, seen, g);
      var owner := Owner(records, fromPod, g);
      if groups[g] != map[] && owner.Some? && owner.value !in values {
        var merged := MergeMetricValues(SamplesOf(next, owner.value), groups[g]);
        next := next[owner.value := merged];
      }
      pending := pending - {g};
      seen := seen + {g};
    }
    assert seen == groups.Keys;
    AfterAllGroups(values, records, fromPod, groups);
  }

  lemma TotalOfNone(groups: map<string, Samples>)
    ensures Total(groups, {}) == map[]
  {
  }

  lemma AllSeen(records: seq<App>, fromPod: bool, groups: map<string, Samples>)
    ensures forall id :: SeenOf(records, fromPod, groups, groups.Keys, id) == GroupsOf(records, fromPod, groups, id)
    ensures forall id :: id in Owners(records, fromPod, groups) <==> GroupsOf(records, fromPod, groups, id) != {}
  {
    hide Owner;
    forall id ensures id in Owners(records, fromPod, groups) <==> GroupsOf(records, fromPod, groups, id) != {} {
      if id in Owners(records, fromPod, groups) {
        var g :| g in groups && groups[g] != map[] && Owner(records, fromPod, g) == Some(id);
        assert g in GroupsOf(records, fromPod, groups, id);
      }
      if GroupsOf(records, fromPod, groups, id) != {} {
        var g :| g in GroupsOf(records, fromPod, groups, id);
      }
    }
  }

  method QueryMetricPointsMany(records: seq<App>, queries: seq<Query>) returns (result: Option<map<string, Samples>>)
    ensures result == if records == [] then Some(map[]) else Batched(map[], records, queries)
  {
    hide AfterQuery;
    var values: map<string, Samples> := map[];
    if records == [] {
      return Some(values);
    }
    var i := 0;
    while i < |queries|
      invariant i <= |queries| && Batched(map[], records, queries) == Batched(values, records, queries[i..])
    {
      assert queries[i..][1..] == queries[i + 1..];
      match queries[i].answer {
        case Failed => return None;
        case NoSamples =>
        case Found(groups) =>
          values := MergeGroups(values, records, queries[i].fromPod, groups);
          if |values| == |records| {
            return Some(values);
          }
      }
      i := i + 1;
    }
    return Some(values);
  }

  // ---------------------------------------------------------------- application by application

  datatype Reading = ReadFailed | ReadNothing | Read(samples: Samples)

  function OwnGroups(name: string, fromPod: bool, groups: map<string, Samples>): set<string> {
    set g | g in groups && groups[g] != map[] && IsOwn(name, fromPod, g)
  }

  /** queryMetricPoints: the first query in which the application has samples of its own. */
  ghost function ReadOne(name: string, queries: seq<Query>): Reading
    decreases |queries|
  {
    if |queries| == 0 then ReadNothing
    else
      match queries[0].answer
      case Failed => ReadFailed
      case NoSamples => ReadOne(name, queries[1..])
      case Found(groups) =>
        var own := OwnGroups(name, queries[0].fromPod, groups);
        if own == {} then ReadOne(name, queries[1..]) else Read(Total(groups, own))
  }

  predicate HasDistinctApps(records: seq<App>) {
    forall i, j :: 0 <= i < |records| && 0 <= j < |records| && i != j ==>
      records[i].id != records[j].id && records[i].name != records[j].name
  }

  /** No name extends another, so no pod matches two of them. */
  predicate HasSeparateNames(records: seq<App>) {
    forall i, j :: 0 <= i < |records| && 0 <= j < |records| && i != j ==> !Extends(records[i].name, records[j].name)
  }

  predicate IsUnambiguous(records: seq<App>) {
    HasDistinctApps(records) && HasSeparateNames(records)
  }

  lemma {:induction false} OwnerByName(records: seq<App>, name: string, k: nat)
    requires k < |records|
    requires forall j :: 0 <= j < |records| && j != k ==> records[j].id != records[k].id && records[j].name != records[k].name
    ensures AppByName(records, name) == Some(records[k].id) <==> name == records[k].name
  {
    var n := |records| - 1;
    if k < n { OwnerByName(records[..n], name, k); }
    else if name != records[k].name { ForeignName(records[..n], name, records[k].id); }
  }

  lemma {:induction false} ForeignName(records: seq<App>, name: string, id: string)
    requires forall j :: 0 <= j < |records| ==> records[j].id != id
    ensures AppByName(records, name) != Some(id)
  {
    if records != [] { ForeignName(records[..|records| - 1], name, id); }
  }

  lemma {:induction false} OwnerOfPod(records: seq<App>, pod: string, k: nat)
    requires k < |records| && forall j :: 0 <= j < |records| && j != k ==> records[j].id != records[k].id
    requires PodMatches(pod, records[k].name) ==> forall j :: 0 <= j < |records| && j != k ==> !PodMatches(pod, records[j].name)
    ensures AppForPod(records, pod) == Some(records[k].id) <==> PodMatches(pod, records[k].name)
  {
    hide PodMatches;
    if k > 0 {
      OwnerOfPod(records[1..], pod, k - 1);
    } else if !PodMatches(pod, records[0].name) {
      ForeignPod(records[1..], pod, records[0].id);
    }
  }

  lemma {:induction false} ForeignPod(records: seq<App>, pod: string, id: string)
    requires forall j :: 0 <= j < |records| ==> records[j].id != id
    ensures AppForPod(records, pod) != Some(id)
  {
    hide PodMatches;
    if records != [] { ForeignPod(records[1..], pod, id); }
  }

  /** Without ambiguity an application owns exactly the groups its own query would include. */
  lemma OwnsItsOwn(records: seq<App>, fromPod: bool, groups: map<string, Samples>, k: nat)
    requires IsUnambiguous(records) && k < |records|
    ensures GroupsOf(records, fromPod, groups, records[k].id) == OwnGroups(records[k].name, fromPod, groups)
  {
    forall g | g in groups ensures Owner(records, fromPod, g) == Some(records[k].id) <==> IsOwn(records[k].name, fromPod, g) {
      if fromPod {
        if PodMatches(g, records[k].name) {
          forall j | 0 <= j < |records| && j != k ensures !PodMatches(g, records[j].name) {
            if PodMatches(g, records[j].name) { OneMatch(g, records[j].name, records[k].name); }
          }
        }
        OwnerOfPod(records, g, k);
      } else {
        OwnerByName(records, g, k);
      }
    }
  }

  lemma OneMatch(pod: string, a: string, b: string)
    requires PodMatches(pod, a) && PodMatches(pod, b)
    ensures a == b || Extends(a, b) || Extends(b, a)
  {
    if |a| < |b| { MatchingTwiceExtends(pod, a, b); }
    else if |b| < |a| { MatchingTwiceExtends(pod, b, a); }
  }

  /** The batch gives every application what reading it alone gives, whenever the batch does not fail. */
  lemma BatchRefinesSingleReads(records: seq<App>, queries: seq<Query>, k: nat)
    requires IsUnambiguous(records) && k < |records|
    requires Batched(map[], records, queries).Some?
    ensures var values := Batched(map[], records, queries).value;
            ReadOne(records[k].name, queries)
            == if records[k].id in values then Read(values[records[k].id]) else ReadNothing
  {
    NoValuesYet(map[], records, queries, k);
  }

  ghost predicate OwnersOnly(values: map<string, Samples>, records: seq<App>) {
    forall id :: id in values ==> exists j :: 0 <= j < |records| && records[j].id == id
  }

  lemma {:induction false} KeepsValues(values: map<string, Samples>, records: seq<App>, queries: seq<Query>, id: string)
    requires Batched(values, records, queries).Some? && id in values
    ensures id in Batched(values, records, queries).value && Batched(values, records, queries).value[id] == values[id]
    decreases |queries|
  {
    hide Owners, GroupsOf, Total;
    if |queries| > 0 {
      match queries[0].answer
      case Failed =>
      case NoSamples => KeepsValues(values, records, queries[1..], id);
      case Found(groups) =>
        var next := AfterQuery(values, records, queries[0].fromPod, groups);
        if |next| != |records| { KeepsValues(next, records, queries[1..], id); }
    }
  }

  lemma {:induction false} NoValuesYet(values: map<string, Samples>, records: seq<App>, queries: seq<Query>, k: nat)
    requires IsUnambiguous(records) && k < |records| && records[k].id !in values && OwnersOnly(values, records)
    requires Batched(values, records, queries).Some?
    ensures var result := Batched(values, records, queries).value;
            ReadOne(records[k].name, queries)
            == if records[k].id in result then Read(result[records[k].id]) else ReadNothing
    decreases |queries|
  {
    hide Total, IsUnambiguous;
    if |queries| > 0 {
      match queries[0].answer
      case Failed =>
      case NoSamples => NoValuesYet(values, records, queries[1..], k);
      case Found(groups) =>
        var id, fromPod := records[k].id, queries[0].fromPod;
        var next := AfterQuery(values, records, fromPod, groups);
        OwnsItsOwn(records, fromPod, groups, k);
        AllSeen(records, fromPod, groups);
        AfterQueryOwnersOnly(values, records, fromPod, groups);
        if id in next {
          assert next[id] == Total(groups, OwnGroups(records[k].name, fromPod, groups));
          if |next| != |records| { KeepsValues(next, records, queries[1..], id); }
        } else {
          NotAllResolved(next, records, k);
          NoValuesYet(next, records, queries[1..], k);
        }
    }
  }

  lemma OwnerIsKnown(records: seq<App>, fromPod: bool, g: string)
    requires Owner(records, fromPod, g).Some?
    ensures exists j :: 0 <= j < |records| && records[j].id == Owner(records, fromPod, g).value
  {
    hide AppForPod, AppByName;
    var id := Owner(records, fromPod, g).value;
    if forall j :: 0 <= j < |records| ==> records[j].id != id {
      ForeignPod(records, g, id);
      ForeignName(records, g, id);
    }
  }

  lemma AfterQueryOwnersOnly(values: map<string, Samples>, records: seq<App>, fromPod: bool, groups: map<string, Samples>)
    requires OwnersOnly(values, records)
    ensures OwnersOnly(AfterQuery(values, records, fromPod, groups), records)
  {
    hide Total, Owner;
    var next := AfterQuery(values, records, fromPod, groups);
    forall id | id in next && id !in values ensures exists j :: 0 <= j < |records| && records[j].id == id {
      assert id in Owners(records, fromPod, groups);
      var g :| g in groups && Owner(records, fromPod, g) == Some(id);
      OwnerIsKnown(records, fromPod, g);
    }
  }

  /** While an application has no values the batch cannot stop early. */
  lemma NotAllResolved(values: map<string, Samples>, records: seq<App>, k: nat)
    requires k < |records| && records[k].id !in values && OwnersOnly(values, records)
    ensures |values| < |records|
  {
    var others := IdsOf(records[..k] + records[k + 1..]);
    forall id | id in values ensures id in others {
      var j :| 0 <= j < |records| && records[j].id == id;
      assert records[j] in records[..k] + records[k + 1..] by {
        assert (records[..k] + records[k + 1..])[if j < k then j else j - 1] == records[j];
      }
    }
    IdCount(records[..k] + records[k + 1..]);
    SubsetCount(values.Keys, others);
  }

  function IdsOf(records: seq<App>): set<string> {
    set r | r in records :: r.id
  }

  lemma {:induction false} IdCount(records: seq<App>)
    ensures |IdsOf(records)| <= |records|
  {
    if records != [] {
      IdCount(records[1..]);
      assert records == [records[0]] + records[1..];
      assert IdsOf(records) == IdsOf(records[1..]) + {records[0].id};
    }
  }

  lemma {:induction false} SubsetCount(a: set<string>, b: set<string>)
    requires a <= b
    ensures |a| <= |b|
    decreases |a|
  {
    if a != {} {
      var x :| x in a;
      SubsetCount(a - {x}, b - {x});
    }
  }

  // ---------------------------------------------------------------- conservation

  ghost function SumOverApps(values: map<string, Samples>, ids: set<string>, t: nat): int
    requires ids <= values.Keys
    decreases |ids|
  {
    if ids == {} then 0
    else
      var id :| id in ids;
      ValueAt(values[id], t) + SumOverApps(values, ids - {id}, t)
  }

  /** The groups that some of the given applications own. */
  function GroupsOwned(records: seq<App>, fromPod: bool, groups: map<string, Samples>, ids: set<string>): (owned: set<string>)
    ensures owned <= groups.Keys
  {
    set g | g in groups && groups[g] != map[] && Owner(records, fromPod, g).Some? && Owner(records, fromPod, g).value in ids
  }

  lemma {:induction false} SumOfUnion(groups: map<string, Samples>, a: set<string>, b: set<string>, t: nat)
    requires a <= groups.Keys && b <= groups.Keys && a !! b
    ensures SumAt(groups, a + b, t) == SumAt(groups, a, t) + SumAt(groups, b, t)
    decreases |b|
  {
    if b == {} {
      assert a + b == a;
    } else {
      var g :| g in b;
      SumWithout(groups, b, g, t);
      SumWithout(groups, a + b, g, t);
      assert a + b - {g} == a + (b - {g});
      SumOfUnion(groups, a, b - {g}, t);
    }
  }

  lemma TotalAt(groups: map<string, Samples>, picked: set<string>, t: nat)
    requires picked <= groups.Keys
    ensures ValueAt(Total(groups, picked), t) == SumAt(groups, picked, t)
  {
    if t !in Total(groups, picked) { SumOfNone(groups, picked, t); }
  }

  lemma OwnedSplit(records: seq<App>, fromPod: bool, groups: map<string, Samples>, ids: set<string>, id: string)
    requires id in ids
    ensures var mine, rest := GroupsOf(records, fromPod, groups, id), GroupsOwned(records, fromPod, groups, ids - {id});
            mine !! rest && GroupsOwned(records, fromPod, groups, ids) == mine + rest
  {
    hide Owner;
  }

  lemma {:induction false} SharesAddUp(values: map<string, Samples>, records: seq<App>, fromPod: bool,
                                       groups: map<string, Samples>, ids: set<string>, t: nat)
    requires ids <= values.Keys && forall id :: id in ids ==> values[id] == Total(groups, GroupsOf(records, fromPod, groups, id))
    ensures SumOverApps(values, ids, t) == SumAt(groups, GroupsOwned(records, fromPod, groups, ids), t)
    decreases |ids|
  {
    hide Owner, Total, GroupsOf;
    if ids == {} {
      assert GroupsOwned(records, fromPod, groups, ids) == {};
    } else {
      var id :| id in ids && SumOverApps(values, ids, t) == ValueAt(values[id], t) + SumOverApps(values, ids - {id}, t);
      SharesAddUp(values, records, fromPod, groups, ids - {id}, t);
      var mine, rest := GroupsOf(records, fromPod, groups, id), GroupsOwned(records, fromPod, groups, ids - {id});
      TotalAt(groups, mine, t);
      OwnedSplit(records, fromPod, groups, ids, id);
      SumOfUnion(groups, mine, rest, t);
    }
  }

  /** A pod query hands out every sample of every matching pod exactly once, whether or not names are ambiguous: at each
      moment what the applications get adds up to what the matching pods have. */
  lemma PodSamplesAreConserved(records: seq<App>, groups: map<string, Samples>, t: nat)
    ensures var values := AfterQuery(map[], records, true, groups);
            var matching := set g | g in groups && groups[g] != map[] && exists j :: 0 <= j < |records| && PodMatches(g, records[j].name);
            SumOverApps(values, values.Keys, t) == SumAt(groups, matching, t)
  {
    hide PodMatches, Total;
    var values := AfterQuery(map[], records, true, groups);
    var matching := set g | g in groups && groups[g] != map[] && exists j :: 0 <= j < |records| && PodMatches(g, records[j].name);
    SharesAddUp(values, records, true, groups, values.Keys, t);
    forall g | g in groups && groups[g] != map[] ensures g in matching <==> Owner(records, true, g).Some? { MatchesSome(records, g); }
    forall g | g in groups && groups[g] != map[] && Owner(records, true, g).Some? ensures Owner(records, true, g).value in values {
      OwnerIsListed(records, true, groups, g);
    }
    hide Owner;
    assert GroupsOwned(records, true, groups, values.Keys) == matching;
  }

  lemma {:induction false} MatchesSome(records: seq<App>, pod: string)
    ensures AppForPod(records, pod).Some? <==> exists j :: 0 <= j < |records| && PodMatches(pod, records[j].name)
  {
    hide PodMatches;
    if records != [] {
      MatchesSome(records[1..], pod);
      if exists j :: 0 <= j < |records[1..]| && PodMatches(pod, records[1..][j].name) {
        var j :| 0 <= j < |records[1..]| && PodMatches(pod, records[1..][j].name);
        assert PodMatches(pod, records[j + 1].name);
      }
      if !PodMatches(pod, records[0].name) && exists j :: 0 <= j < |records| && PodMatches(pod, records[j].name) {
        var j :| 0 <= j < |records| && PodMatches(pod, records[j].name);
        assert PodMatches(pod, records[1..][j - 1].name);
      }
    }
  }

  /** A query that finds one pod with samples. */
  function OnePod(pod: string, samples: Samples): seq<Query> {
    [Query(true, Found(map[pod := samples]))]
  }

  lemma BatchOfOnePod(records: seq<App>, pod: string, samples: Samples, k: nat)
    requires k < |records| && samples != map[] && AppForPod(records, pod) != Some(records[k].id)
    ensures Batched(map[], records, OnePod(pod, samples)).Some?
    ensures records[k].id !in Batched(map[], records, OnePod(pod, samples)).value
  {
    hide PodMatches, Total, AppForPod;
    assert OnePod(pod, samples)[1..] == [];
  }

  lemma ReadOfOnePod(name: string, pod: string, samples: Samples)
    requires PodMatches(pod, name) && samples != map[]
    ensures ReadOne(name, OnePod(pod, samples)).Read?
  {
    hide PodMatches, Total;
    assert pod in OwnGroups(name, true, map[pod := samples]);
  }

  /** The batch and the single reads agree, for every run of queries that the batch gets through and every application. */
  ghost predicate AlwaysAgree(records: seq<App>) {
    forall queries: seq<Query>, k | 0 <= k < |records| && Batched(map[], records, queries).Some? ::
      Agree(records, queries, k)
  }

  ghost predicate Agree(records: seq<App>, queries: seq<Query>, k: nat)
    requires k < |records| && Batched(map[], records, queries).Some?
  {
    var values := Batched(map[], records, queries).value;
    ReadOne(records[k].name, queries) == if records[k].id in values then Read(values[records[k].id]) else ReadNothing
  }

  /** A pod that fits two applications goes to at most one of them, and another one loses samples its own query has. */
  lemma OneAppLosesPod(records: seq<App>, pod: string, samples: Samples, i: nat, j: nat) returns (k: nat)
    requires HasDistinctApps(records) && i < |records| && j < |records| && i != j && samples != map[]
    requires PodMatches(pod, records[i].name) && PodMatches(pod, records[j].name)
    ensures k in {i, j} && Batched(map[], records, OnePod(pod, samples)).Some?
    ensures k < |records| && !Agree(records, OnePod(pod, samples), k)
  {
    hide PodMatches, Total, AppForPod, Batched, ReadOne;
    k := if AppForPod(records, pod) == Some(records[i].id) then j else i;
    BatchOfOnePod(records, pod, samples, k);
    ReadOfOnePod(records[k].name, pod, samples);
  }

  /** For applications with distinct ids and names, the batch gives each what reading it alone gives, exactly if no name
      extends another by one segment. */
  lemma BatchAgreesExactly(records: seq<App>)
    requires HasDistinctApps(records)
    ensures AlwaysAgree(records) <==> HasSeparateNames(records)
  {
    hide PodMatches, Total, Batched, ReadOne, Extends;
    if HasSeparateNames(records) {
      forall queries: seq<Query>, k | 0 <= k < |records| && Batched(map[], records, queries).Some?
        ensures Agree(records, queries, k)
      {
        BatchRefinesSingleReads(records, queries, k);
      }
    } else {
      var i, j :| 0 <= i < |records| && 0 <= j < |records| && i != j && Extends(records[i].name, records[j].name);
      ExtensionIsAmbiguous(records[i].name, records[j].name);
      var pod, samples: Samples := records[i].name + "-x", map[0 := 1];
      assert 0 in samples;
      var k := OneAppLosesPod(records, pod, samples, i, j);
      assert !Agree(records, OnePod(pod, samples), k);
    }
  }
}
