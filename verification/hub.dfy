/** The Hub dashboard's file search and source summary
    (`src/components/HubDashboard.tsx`): a filter of the literal file list by
    title text, source and channel tag, and the file total over linked
    sources. */
module Hub {
  import opened Seqs
  import opened Text

  datatype SourceStatus = Linked | Linking | Unlinked | Reauth

  datatype Source = Source(id: int, name: string, status: SourceStatus, icon: string, lastSync: string, filesCount: int)

  datatype HubFile = HubFile(
    id: int,
    title: string,
    kind: string,
    source: string,
    tags: seq<string>,
    duplicates: int,
    modified: string,
    size: string)

  /** The connected storage sources, as listed on the Sources tab. */
  const Sources: seq<Source> := [
    Source(1, "Google Drive", Linked, "\U{1F5C2}\U{FE0F}", "2 min ago", 1247),
    Source(2, "Dropbox", Linking, "\U{1F4E6}", "Syncing...", 0),
    Source(3, "OneDrive", Unlinked, "\U{2601}\U{FE0F}", "Never", 0),
    Source(4, "Notion", Linked, "\U{1F4DD}", "5 min ago", 89),
    Source(5, "GitHub", Reauth, "\U{26A1}", "1 hour ago", 156)
  ]

  /** The consolidated files. */
  const Files: seq<HubFile> := [
    HubFile(1, "Mobile App Redesign Brief.pdf", "pdf", "Google Drive", ["workstreams/app-redesign"], 2, "2 hours ago", "2.4 MB"),
    HubFile(2, "Homepage wireframes.fig", "figma", "Dropbox", ["workstreams/website"], 0, "1 day ago", "18.2 MB"),
    HubFile(3, "client-pitch.md", "markdown", "GitHub", ["committees/marketing"], 0, "3 days ago", "45 KB"),
    HubFile(4, "Meeting Notes - 2025-09-20", "notion", "Notion", ["#general"], 1, "1 week ago", "12 KB"),
    HubFile(5, "Design System Components.sketch", "sketch", "Google Drive", ["committees/design"], 3, "2 weeks ago", "156 MB"),
    HubFile(6, "API Documentation.pdf", "pdf", "GitHub", ["committees/development"], 0, "3 weeks ago", "890 KB")
  ]

  /** The value of the source and channel selects that means "no filter". */
  const All := "all"

  /** The search box text and the two selects. */
  datatype Criteria = Criteria(query: string, source: string, channel: string)

  /** The state the Files tab opens in. */
  const NoFilter := Criteria("", All, All)

  /** The lowercased title contains the lowercased query. */
  predicate MatchesSearch(f: HubFile, query: string) {
    Contains(Lower(f.title), Lower(query))
  }

  predicate MatchesSource(f: HubFile, source: string) {
    source == All || f.source == source
  }

  /** Some tag contains the channel value, case-sensitively. */
  predicate MatchesChannel(f: HubFile, channel: string) {
    channel == All || exists i :: 0 <= i < |f.tags| && Contains(f.tags[i], channel)
  }

  /** The predicate `filteredFiles` keeps a file by. */
  predicate Keeps(f: HubFile, c: Criteria) {
    MatchesSearch(f, c.query) && MatchesSource(f, c.source) && MatchesChannel(f, c.channel)
  }

  /** `filteredFiles`: every copy of each file `c` keeps, in the original
      order. */
  function FilterFiles(fs: seq<HubFile>, c: Criteria): (r: seq<HubFile>)
    ensures forall f :: f in r <==> f in fs && Keeps(f, c)
    ensures forall f {:trigger multiset(r)[f]} :: multiset(r)[f] == if Keeps(f, c) then multiset(fs)[f] else 0
    ensures IsSubsequence(r, fs)
    decreases |fs|
  {
    if |fs| == 0 then []
    else
      var rest := FilterFiles(fs[1..], c);
      assert fs == [fs[0]] + fs[1..];
      if Keeps(fs[0], c) then
        assert ([fs[0]] + rest)[1..] == rest;
        [fs[0]] + rest
      else rest
  }

  /** With no query and both selects on "all", every file is listed. */
  lemma {:induction false} NoFilterKeepsAll(fs: seq<HubFile>)
    ensures FilterFiles(fs, NoFilter) == fs
    decreases |fs|
  {
    if |fs| > 0 {
      ContainsEmpty(Lower(fs[0].title));
      assert Lower("") == "";
      NoFilterKeepsAll(fs[1..]);
    }
  }

  /** `narrow` asks for at least what `wide` asks for: its query contains the
      wider query, and each select either stays as it was or moves off
      "all" (a channel value may also grow to one containing the old one). */
  predicate Narrows(narrow: Criteria, wide: Criteria) {
    && Contains(narrow.query, wide.query)
    && (wide.source == All || narrow.source == wide.source)
    && (wide.channel == All || (narrow.channel != All && Contains(narrow.channel, wide.channel)))
  }

  /** A file the narrower criteria keep is kept by the wider ones. */
  lemma KeepsWidens(f: HubFile, narrow: Criteria, wide: Criteria)
    requires Narrows(narrow, wide) && Keeps(f, narrow)
    ensures Keeps(f, wide)
  {
    LowerContains(narrow.query, wide.query);
    ContainsTransitive(Lower(f.title), Lower(narrow.query), Lower(wide.query));
    if wide.channel != All {
      var i :| 0 <= i < |f.tags| && Contains(f.tags[i], narrow.channel);
      ContainsTransitive(f.tags[i], narrow.channel, wide.channel);
    }
  }

  /** Narrowing the criteria can only shrink the list: the narrower result
      is an ordered subsequence of the wider one. */
  lemma {:induction false} NarrowingShrinks(fs: seq<HubFile>, narrow: Criteria, wide: Criteria)
    requires Narrows(narrow, wide)
    ensures IsSubsequence(FilterFiles(fs, narrow), FilterFiles(fs, wide))
    ensures |FilterFiles(fs, narrow)| <= |FilterFiles(fs, wide)|
    decreases |fs|
  {
    if |fs| > 0 {
      NarrowingShrinks(fs[1..], narrow, wide);
      var n := FilterFiles(fs[1..], narrow);
      var w := FilterFiles(fs[1..], wide);
      if Keeps(fs[0], narrow) {
        KeepsWidens(fs[0], narrow, wide);
        assert ([fs[0]] + n)[1..] == n;
        assert ([fs[0]] + w)[1..] == w;
      } else if Keeps(fs[0], wide) {
        assert ([fs[0]] + w)[1..] == w;
        if |n| > 0 {
          assert IsSubsequence(n, ([fs[0]] + w)[1..]);
        }
      }
    }
    SubsequenceLength(FilterFiles(fs, narrow), FilterFiles(fs, wide));
  }

  /** The "#general" option (value "general") matches the tag "#general" by
      substring, and channel matching is case-sensitive: "General" matches
      no tag of that file. */
  lemma GeneralMatchesHashGeneral()
    ensures MatchesChannel(Files[3], "general")
    ensures !MatchesChannel(Files[3], "General")
  {
    var tag := Files[3].tags[0];
    assert tag == "#general";
    assert "general" <= tag[1..];
    assert Contains(tag, "general");
    forall i: nat
      ensures !OccursAt(tag, "General", i)
    {
      if i == 0 {
        assert tag[0] != 'G';
      } else if i == 1 {
        assert tag[1] != 'G';
      }
    }
    ContainsIff(tag, "General");
  }

  /** `linkedSources`: every copy of each source whose status is "linked",
      in order. */
  function LinkedSources(ss: seq<Source>): (r: seq<Source>)
    ensures forall s :: s in r <==> s in ss && s.status == Linked
    ensures forall s {:trigger multiset(r)[s]} :: multiset(r)[s] == if s.status == Linked then multiset(ss)[s] else 0
    ensures IsSubsequence(r, ss)
    decreases |ss|
  {
    if |ss| == 0 then []
    else
      var rest := LinkedSources(ss[1..]);
      assert ss == [ss[0]] + ss[1..];
      if ss[0].status == Linked then
        assert ([ss[0]] + rest)[1..] == rest;
        [ss[0]] + rest
      else rest
  }

  /** The left fold `reduce((sum, s) => sum + s.filesCount, 0)`. */
  function SumFiles(ss: seq<Source>): int
    decreases |ss|
  {
    if |ss| == 0 then 0 else SumFiles(ss[..|ss| - 1]) + ss[|ss| - 1].filesCount
  }

  /** `totalFiles`: the files held by linked sources. */
  function TotalFiles(ss: seq<Source>): int {
    SumFiles(LinkedSources(ss))
  }

  /** The fold can be read from the front as well. */
  lemma {:induction false} SumFilesCons(s: Source, ss: seq<Source>)
    ensures SumFiles([s] + ss) == s.filesCount + SumFiles(ss)
    decreases |ss|
  {
    if |ss| > 0 {
      assert ([s] + ss)[..|ss|] == [s] + ss[..|ss| - 1];
      SumFilesCons(s, ss[..|ss| - 1]);
    }
  }

  /** `linkedSources` read one source at a time from the front. */
  lemma LinkedSourcesCons(s: Source, ss: seq<Source>)
    ensures s.status == Linked ==> LinkedSources([s] + ss) == [s] + LinkedSources(ss)
    ensures s.status != Linked ==> LinkedSources([s] + ss) == LinkedSources(ss)
  {
    assert ([s] + ss)[1..] == ss;
  }

  /** Only linked sources count towards the total, each with its whole
      file count. */
  lemma {:induction false} TotalFilesCounts(s: Source, ss: seq<Source>)
    ensures s.status == Linked ==> TotalFiles([s] + ss) == s.filesCount + TotalFiles(ss)
    ensures s.status != Linked ==> TotalFiles([s] + ss) == TotalFiles(ss)
  {
    LinkedSourcesCons(s, ss);
    if s.status == Linked {
      SumFilesCons(s, LinkedSources(ss));
    }
  }

  /** The literal sources, built up from the back. */
  lemma LiteralSourcesSplit()
    ensures Sources == [Sources[0]] + ([Sources[1]] + ([Sources[2]] + ([Sources[3]] + ([Sources[4]] + []))))
  {
  }

  /** For the literal sources the total is 1247 + 89. */
  lemma LiteralTotal()
    ensures TotalFiles(Sources) == 1336
  {
    var s0, s1, s2, s3, s4 := Sources[0], Sources[1], Sources[2], Sources[3], Sources[4];
    LiteralSourcesSplit();
    TotalFilesCounts(s4, []);
    TotalFilesCounts(s3, [s4] + []);
    TotalFilesCounts(s2, [s3] + ([s4] + []));
    TotalFilesCounts(s1, [s2] + ([s3] + ([s4] + [])));
    TotalFilesCounts(s0, [s1] + ([s2] + ([s3] + ([s4] + []))));
  }

  /** The items of the source select: "all", then one item per linked
      source, its name, in source order. */
  function SourceOptions(ss: seq<Source>): (r: seq<string>)
    ensures |r| >= 1 && r[0] == All
    ensures forall v :: v in r[1..] <==> exists s :: s in ss && s.status == Linked && s.name == v
    ensures |r| == 1 + |LinkedSources(ss)|
    ensures forall i :: 0 <= i < |LinkedSources(ss)| ==> r[i + 1] == LinkedSources(ss)[i].name
  {
    var linked := LinkedSources(ss);
    var names := seq(|linked|, i requires 0 <= i < |linked| => linked[i].name);
    assert forall v :: v in names <==> exists s :: s in linked && s.name == v by {
      forall v | v in names
        ensures exists s :: s in linked && s.name == v
      {
        var i :| 0 <= i < |names| && names[i] == v;
        assert linked[i] in linked;
      }
      forall v | exists s :: s in linked && s.name == v
        ensures v in names
      {
        var s :| s in linked && s.name == v;
        var i :| 0 <= i < |linked| && linked[i] == s;
        assert names[i] == v;
      }
    }
    assert ([All] + names)[1..] == names;
    [All] + names
  }

  /** Five sources of which the first and fourth are linked. */
  lemma LinkedOfFive(s0: Source, s1: Source, s2: Source, s3: Source, s4: Source)
    requires s0.status == Linked && s1.status != Linked && s2.status != Linked
    requires s3.status == Linked && s4.status != Linked
    ensures LinkedSources([s0] + ([s1] + ([s2] + ([s3] + ([s4] + []))))) == [s0, s3]
  {
    var t4 := [s4] + [];
    var t3 := [s3] + t4;
    var t2 := [s2] + t3;
    var t1 := [s1] + t2;
    LinkedSourcesCons(s4, []);
    LinkedSourcesCons(s3, t4);
    LinkedSourcesCons(s2, t3);
    LinkedSourcesCons(s1, t2);
    LinkedSourcesCons(s0, t1);
    assert [s0] + ([s3] + []) == [s0, s3];
  }

  /** Of the literal sources, Google Drive and Notion are linked. */
  lemma LiteralLinkedSources()
    ensures LinkedSources(Sources) == [Sources[0], Sources[3]]
  {
    LiteralSourcesSplit();
    LinkedOfFive(Sources[0], Sources[1], Sources[2], Sources[3], Sources[4]);
  }

  /** For the literal sources the select offers "all", "Google Drive" and
      "Notion", in that order. */
  lemma LiteralSourceOptions()
    ensures SourceOptions(Sources) == [All, "Google Drive", "Notion"]
  {
    LiteralLinkedSources();
    var r := SourceOptions(Sources);
    assert |r| == 3;
    assert r[1] == "Google Drive";
    assert r[2] == "Notion";
  }
}
