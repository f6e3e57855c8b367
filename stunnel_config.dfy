/**
 * What `_parse_config` gives the health check: stunnel.conf read by
 * configparser after a `[common]` header has been put in front of it.
 * The file is taken as a sequence of section headers and `key = value`
 * settings (comments and blank lines already dropped).
 */
module StunnelConfig {
  import opened Wrappers
  import opened Pairs

  datatype ConfigLine = Header(name: string) | Setting(key: string, value: string)

  datatype Section = Section(name: string, options: seq<Binding<string>>)

  /** `read_string`: the sections in order, or the error raised by a setting before any header. */
  datatype Parsed = Sections(sections: seq<Section>) | MissingSectionHeader

  /** The settings among `lines`, in order. */
  function Options(lines: seq<ConfigLine>): (r: seq<Binding<string>>)
    ensures |r| <= |lines|
    decreases |lines|
  {
    if |lines| == 0 then []
    else (if lines[0].Setting? then [Binding(lines[0].key, lines[0].value)] else []) + Options(lines[1..])
  }

  /** The section names the headers among `lines` introduce, in order. */
  function HeaderNames(lines: seq<ConfigLine>): seq<string>
    decreases |lines|
  {
    if |lines| == 0 then []
    else (if lines[0].Header? then [lines[0].name] else []) + HeaderNames(lines[1..])
  }

  /** How many settings come before the first header. */
  function LeadingSettings(lines: seq<ConfigLine>): (n: nat)
    ensures n <= |lines|
    ensures forall i :: 0 <= i < n ==> lines[i].Setting?
    ensures n < |lines| ==> lines[n].Header?
    decreases |lines|
  {
    if |lines| == 0 || lines[0].Header? then 0 else 1 + LeadingSettings(lines[1..])
  }

  /** The sections of a text whose first section, `name`, is already open. */
  function SectionsFrom(name: string, lines: seq<ConfigLine>): (r: seq<Section>)
    ensures |r| >= 1 && r[0].name == name
    decreases |lines|
  {
    var n := LeadingSettings(lines);
    [Section(name, Options(lines[..n]))]
    + (if n == |lines| then [] else SectionsFrom(lines[n].name, lines[n + 1..]))
  }

  function ReadString(lines: seq<ConfigLine>): (r: Parsed)
    ensures r.MissingSectionHeader? <==> |lines| > 0 && lines[0].Setting?
    ensures |lines| == 0 ==> r == Sections([])
    ensures |lines| > 0 && r.Sections? ==> |r.sections| > 0 && r.sections[0].name == lines[0].name
  {
    if |lines| == 0 then Sections([])
    else if lines[0].Setting? then MissingSectionHeader
    else Sections(SectionsFrom(lines[0].name, lines[1..]))
  }

  function SectionNames(sections: seq<Section>): (r: seq<string>)
    ensures |r| == |sections|
    decreases |sections|
  {
    if |sections| == 0 then [] else [sections[0].name] + SectionNames(sections[1..])
  }

  /** The options of every section called `name`, in order: what a lenient parser gathers under that name. */
  function OptionsNamed(sections: seq<Section>, name: string): seq<Binding<string>>
    decreases |sections|
  {
    if |sections| == 0 then []
    else
      var last := sections[|sections| - 1];
      OptionsNamed(sections[..|sections| - 1], name) + (if last.name == name then last.options else [])
  }

  lemma {:induction false} OptionsNamedAbsent(sections: seq<Section>, name: string)
    requires forall j :: 0 <= j < |sections| ==> sections[j].name != name
    ensures OptionsNamed(sections, name) == []
    decreases |sections|
  {
    if |sections| > 0 {
      OptionsNamedAbsent(sections[..|sections| - 1], name);
    }
  }

  predicate UniqueSectionNames(sections: seq<Section>) {
    forall i, j :: 0 <= i < j < |sections| ==> sections[i].name != sections[j].name
  }

  /** Where a section called `name` sits in `sections`. */
  function SectionIndex(sections: seq<Section>, name: string): (r: Option<nat>)
    ensures r.None? <==> forall i :: 0 <= i < |sections| ==> sections[i].name != name
    ensures r.Some? ==> r.value < |sections| && sections[r.value].name == name
    decreases |sections|
  {
    if |sections| == 0 then None
    else if sections[0].name == name then Some(0)
    else match SectionIndex(sections[1..], name)
      case None => None
      case Some(i) => Some(i + 1)
  }

  /**
   * With `strict=False` a repeated header reopens the section it names: its
   * options join that section's, and the section keeps the place of its
   * first header.
   */
  function MergeSections(sections: seq<Section>): (r: seq<Section>)
    ensures |r| <= |sections|
    ensures |sections| > 0 ==> |r| > 0 && r[0].name == sections[0].name
    decreases |sections|
  {
    if |sections| == 0 then []
    else
      var acc := MergeSections(sections[..|sections| - 1]);
      var last := sections[|sections| - 1];
      match SectionIndex(acc, last.name)
      case Some(k) => acc[k := Section(last.name, acc[k].options + last.options)]
      case None => acc + [last]
  }

  /** The merged sections have distinct names. */
  lemma {:induction false} MergeSectionsUnique(sections: seq<Section>)
    ensures UniqueSectionNames(MergeSections(sections))
    decreases |sections|
  {
    if |sections| > 0 {
      var init := sections[..|sections| - 1];
      var last := sections[|sections| - 1];
      MergeSectionsUnique(init);
      var acc := MergeSections(init);
      var r := MergeSections(sections);
      if SectionIndex(acc, last.name).Some? {
        var k := SectionIndex(acc, last.name).value;
        assert r == acc[k := Section(last.name, acc[k].options + last.options)];
        assert forall i :: 0 <= i < |r| ==> r[i].name == acc[i].name;
      } else {
        assert r == acc + [last];
      }
    }
  }

  /** The merge invents no section name. */
  lemma {:induction false} MergeSectionsFrom(sections: seq<Section>)
    ensures forall i :: 0 <= i < |MergeSections(sections)| ==>
              SectionIndex(sections, MergeSections(sections)[i].name).Some?
    decreases |sections|
  {
    if |sections| > 0 {
      var init := sections[..|sections| - 1];
      var last := sections[|sections| - 1];
      MergeSectionsFrom(init);
      var acc := MergeSections(init);
      var r := MergeSections(sections);
      forall i | 0 <= i < |r|
        ensures SectionIndex(sections, r[i].name).Some?
      {
        if r[i].name == last.name {
          assert sections[|sections| - 1].name == r[i].name;
        } else {
          assert i < |acc| && r[i].name == acc[i].name;
          var j := SectionIndex(init, r[i].name).value;
          assert sections[j] == init[j];
        }
      }
    }
  }

  /** Every name of the parsed sections survives the merge. */
  lemma {:induction false} MergeSectionsCovers(sections: seq<Section>)
    ensures forall j :: 0 <= j < |sections| ==>
              SectionIndex(MergeSections(sections), sections[j].name).Some?
    decreases |sections|
  {
    if |sections| > 0 {
      var init := sections[..|sections| - 1];
      var last := sections[|sections| - 1];
      MergeSectionsCovers(init);
      var acc := MergeSections(init);
      var r := MergeSections(sections);
      forall j | 0 <= j < |sections|
        ensures SectionIndex(r, sections[j].name).Some?
      {
        if j < |init| {
          assert sections[j] == init[j];
          var i := SectionIndex(acc, init[j].name).value;
          assert r[i].name == acc[i].name;
        } else if SectionIndex(acc, last.name).Some? {
          var k := SectionIndex(acc, last.name).value;
          assert r[k].name == last.name;
        } else {
          assert r[|acc|] == last;
        }
      }
    }
  }

  /** A merged section holds the options of every parsed section of its name, in file order. */
  lemma {:induction false} MergeSectionsOptions(sections: seq<Section>)
    ensures forall i :: 0 <= i < |MergeSections(sections)| ==>
              MergeSections(sections)[i].options == OptionsNamed(sections, MergeSections(sections)[i].name)
    decreases |sections|
  {
    if |sections| > 0 {
      var init := sections[..|sections| - 1];
      var last := sections[|sections| - 1];
      MergeSectionsOptions(init);
      var acc := MergeSections(init);
      var r := MergeSections(sections);
      if SectionIndex(acc, last.name).Some? {
        var k := SectionIndex(acc, last.name).value;
        assert r == acc[k := Section(last.name, acc[k].options + last.options)];
        MergeSectionsUnique(init);
      } else {
        assert r == acc + [last];
        MergeSectionsCovers(init);
        assert forall j :: 0 <= j < |init| ==> init[j].name != last.name;
        OptionsNamedAbsent(init, last.name);
      }
    }
  }

  /** `_parse_config`: the file read as `"[common]\n" + contents`. */
  function ParseConfig(lines: seq<ConfigLine>): (sections: seq<Section>)
    ensures |sections| > 0 && sections[0].name == "common"
    ensures ReadString([Header("common")] + lines) == Sections(SectionsFrom("common", lines))
  {
    assert ([Header("common")] + lines)[1..] == lines;
    MergeSections(SectionsFrom("common", lines))
  }

  /** Settings in front of the first header contribute no header. */
  lemma {:induction false} HeaderNamesSkipSettings(lines: seq<ConfigLine>)
    ensures HeaderNames(lines) == HeaderNames(lines[LeadingSettings(lines)..])
    decreases |lines|
  {
    if |lines| > 0 && lines[0].Setting? {
      HeaderNamesSkipSettings(lines[1..]);
      assert lines[1..][LeadingSettings(lines[1..])..] == lines[LeadingSettings(lines)..];
    }
  }

  lemma {:induction false} SectionNamesFrom(name: string, lines: seq<ConfigLine>)
    ensures SectionNames(SectionsFrom(name, lines)) == [name] + HeaderNames(lines)
    decreases |lines|
  {
    var n := LeadingSettings(lines);
    HeaderNamesSkipSettings(lines);
    if n < |lines| {
      SectionNamesFrom(lines[n].name, lines[n + 1..]);
      assert lines[n..][1..] == lines[n + 1..];
    }
  }

  lemma {:induction false} SectionNamesAt(sections: seq<Section>, j: int)
    requires 0 <= j < |sections|
    ensures SectionNames(sections)[j] == sections[j].name
    decreases |sections|
  {
    if j > 0 {
      SectionNamesAt(sections[1..], j - 1);
    }
  }

  /**
   * Without the prepended header a file that opens with a setting is
   * refused; with it, the sections are `common` and sections named by the
   * file's headers, each name once.
   */
  lemma ParseConfigSections(lines: seq<ConfigLine>)
    ensures |lines| > 0 && lines[0].Setting? ==> ReadString(lines) == MissingSectionHeader
    ensures UniqueSectionNames(ParseConfig(lines))
    ensures forall i :: 0 <= i < |ParseConfig(lines)| ==>
              ParseConfig(lines)[i].name == "common" || ParseConfig(lines)[i].name in HeaderNames(lines)
  {
    var raw := SectionsFrom("common", lines);
    var merged := ParseConfig(lines);
    MergeSectionsUnique(raw);
    MergeSectionsFrom(raw);
    SectionNamesFrom("common", lines);
    forall i | 0 <= i < |merged|
      ensures merged[i].name == "common" || merged[i].name in HeaderNames(lines)
    {
      var j := SectionIndex(raw, merged[i].name).value;
      SectionNamesAt(raw, j);
    }
  }

  /** Every header of the file names a section of the parsed configuration. */
  lemma ParseConfigHeaders(lines: seq<ConfigLine>)
    ensures forall h :: h in HeaderNames(lines) ==> SectionIndex(ParseConfig(lines), h).Some?
  {
    var raw := SectionsFrom("common", lines);
    MergeSectionsCovers(raw);
    SectionNamesFrom("common", lines);
    forall h | h in HeaderNames(lines)
      ensures SectionIndex(ParseConfig(lines), h).Some?
    {
      var m :| 0 <= m < |HeaderNames(lines)| && HeaderNames(lines)[m] == h;
      SectionNamesAt(raw, m + 1);
    }
  }

  /** The first section of a name opens the options gathered under it. */
  lemma {:induction false} OptionsNamedFirst(sections: seq<Section>, name: string)
    requires |sections| > 0 && sections[0].name == name
    ensures sections[0].options <= OptionsNamed(sections, name)
    ensures (forall j :: 1 <= j < |sections| ==> sections[j].name != name) ==>
              OptionsNamed(sections, name) == sections[0].options
    decreases |sections|
  {
    if |sections| > 1 {
      var init := sections[..|sections| - 1];
      OptionsNamedFirst(init, name);
    }
  }

  /** When the file does not reopen `[common]`, no later section is called `common`. */
  lemma LaterSectionsNotCommon(lines: seq<ConfigLine>)
    requires "common" !in HeaderNames(lines)
    ensures forall j :: 1 <= j < |SectionsFrom("common", lines)| ==> SectionsFrom("common", lines)[j].name != "common"
  {
    var raw := SectionsFrom("common", lines);
    SectionNamesFrom("common", lines);
    forall j | 1 <= j < |raw|
      ensures raw[j].name != "common"
    {
      SectionNamesAt(raw, j);
      assert SectionNames(raw)[j] == HeaderNames(lines)[j - 1];
    }
  }

  /**
   * The settings in front of the first header land in `common`: they open
   * its options, and are all of them unless the file reopens `[common]`.
   */
  lemma CommonCollectsLeading(lines: seq<ConfigLine>)
    ensures Options(lines[..LeadingSettings(lines)]) <= ParseConfig(lines)[0].options
    ensures "common" !in HeaderNames(lines) ==>
              ParseConfig(lines)[0].options == Options(lines[..LeadingSettings(lines)])
  {
    var raw := SectionsFrom("common", lines);
    var merged := MergeSections(raw);
    assert ParseConfig(lines) == merged;
    MergeSectionsOptions(raw);
    assert merged[0].options == OptionsNamed(raw, "common");
    assert raw[0].options == Options(lines[..LeadingSettings(lines)]);
    if "common" !in HeaderNames(lines) {
      LaterSectionsNotCommon(lines);
    }
    OptionsNamedFirst(raw, "common");
  }
}
