/** What the resume templates derive from a record before it reaches the markup: the
    placeholder for a missing record, contact items shown only when non-empty, date ranges
    with a fallback label, description bullets and the optional projects section. */
module TemplateCommon {
  import opened Wrappers
  import opened JsString
  import opened ResumeTypes

  /** The text every template shows when there is no record. */
  const NoDataMessage := "No resume data to display."

  /** What a template renders: the placeholder, or a page built from the record. */
  datatype Screen<T> = Placeholder(message: string) | Page(content: T)

  /** A contact item written as `{value && <span>…</span>}`: present only for a truthy value. */
  function ShownIf(o: Option<string>): (r: seq<string>)
    ensures r == [] <==> !Truthy(o)
    ensures r != [] ==> r == [o.value]
  {
    if Truthy(o) then [o.value] else []
  }

  /** 1 for a non-empty value, 0 otherwise. */
  function Count(o: Option<string>): nat {
    if Truthy(o) then 1 else 0
  }

  /** The non-empty values of a list, in order: what a row of `{value && <span>…</span>}`
      items renders. */
  function Truthies(os: seq<Option<string>>): (r: seq<string>)
    ensures forall x :: x in r ==> x != ""
    decreases |os|
  {
    if os == [] then []
    else if Truthy(os[0]) then [os[0].value] + Truthies(os[1..])
    else Truthies(os[1..])
  }

  /** The first value's item, then the rest's. */
  lemma TruthiesCons(o: Option<string>, os: seq<Option<string>>)
    ensures Truthies([o] + os) == ShownIf(o) + Truthies(os)
  {
    assert ([o] + os)[1..] == os;
  }

  /** Three `{value && …}` items in a row render the non-empty values among them. */
  lemma TruthiesOfThree(a: Option<string>, b: Option<string>, c: Option<string>)
    ensures Truthies([a, b, c]) == ShownIf(a) + ShownIf(b) + ShownIf(c)
  {
    var sa, sb, sc := ShownIf(a), ShownIf(b), ShownIf(c);
    assert Truthies([c]) == sc by {
      TruthiesCons(c, []);
      assert [c] + [] == [c];
    }
    assert Truthies([b, c]) == sb + sc by {
      TruthiesCons(b, [c]);
      assert [b] + [c] == [b, c];
    }
    assert Truthies([a, b, c]) == sa + (sb + sc) by {
      TruthiesCons(a, [b, c]);
      assert [a] + [b, c] == [a, b, c];
    }
    ItemsAssoc(sa, sb, sc);
  }

  lemma ItemsAssoc(a: seq<string>, b: seq<string>, c: seq<string>)
    ensures a + b + c == a + (b + c)
  {
  }

  /** Four such items. */
  lemma TruthiesOfFour(a: Option<string>, b: Option<string>, c: Option<string>, d: Option<string>)
    ensures Truthies([a, b, c, d]) == ShownIf(a) + ShownIf(b) + ShownIf(c) + ShownIf(d)
  {
    var sa, sb, sc, sd := ShownIf(a), ShownIf(b), ShownIf(c), ShownIf(d);
    assert Truthies([b, c, d]) == sb + sc + sd by { TruthiesOfThree(b, c, d); }
    assert Truthies([a, b, c, d]) == sa + (sb + sc + sd) by {
      TruthiesCons(a, [b, c, d]);
      assert [a] + [b, c, d] == [a, b, c, d];
    }
    ItemsAssoc(sa, sb + sc, sd);
    ItemsAssoc(sa, sb, sc);
  }

  /** `start + sep + (end || fallback)`. */
  function DateRange(start: string, sep: string, end: Option<string>, fallback: string): (r: string)
    ensures Truthy(end) ==> r == start + sep + end.value
    ensures !Truthy(end) ==> r == start + sep + fallback
  {
    start + sep + OrElse(end, fallback)
  }

  /** An absent end date and an empty one give the same range. */
  lemma AbsentAndEmptyEndAgree(start: string, sep: string, fallback: string)
    ensures DateRange(start, sep, None, fallback) == DateRange(start, sep, Some(""), fallback)
    ensures DateRange(start, sep, None, fallback) == DateRange(start, sep, Some(fallback), fallback)
  {
  }

  /** A job as the creative and infographic templates show it: the title, the company, the
      date range and the description as one paragraph. */
  datatype JobView = JobView(title: string, company: string, dates: string, description: string)

  /** One view per job, in order, the end date falling back to `fallback`. */
  function JobViews(ws: seq<WorkExperience>, fallback: string): (r: seq<JobView>)
    ensures |r| == |ws|
    ensures forall i :: 0 <= i < |ws| ==>
              r[i] == JobView(ws[i].title, ws[i].company,
                              DateRange(ws[i].startDate, " - ", ws[i].endDate, fallback), ws[i].description)
  {
    seq(|ws|, i requires 0 <= i < |ws| =>
      JobView(ws[i].title, ws[i].company, DateRange(ws[i].startDate, " - ", ws[i].endDate, fallback), ws[i].description))
  }

  /** An education entry as the sidebar or column shows it. */
  datatype EducationView = EducationView(degree: string, institution: string, dates: string)

  function EducationViews(es: seq<Education>, sep: string): (r: seq<EducationView>)
    ensures |r| == |es|
    ensures forall i :: 0 <= i < |es| ==>
              r[i] == EducationView(es[i].degree, es[i].institution, es[i].startDate + sep + es[i].endDate)
  {
    seq(|es|, i requires 0 <= i < |es| =>
      EducationView(es[i].degree, es[i].institution, es[i].startDate + sep + es[i].endDate))
  }

  /** `{projects && projects.length > 0 && <section>…</section>}`. */
  function ProjectsSection(ps: seq<Project>): (r: Option<seq<Project>>)
    ensures r.Some? <==> |ps| > 0
    ensures r.Some? ==> r.value == ps
  {
    if |ps| > 0 then Some(ps) else None
  }

  // ---------------------------------------------------------------------------------------
  // Initials

  /** `s.substring(0, 1)`. */
  function FirstChar(s: string): (r: string)
    ensures |r| <= 1
    ensures r == "" <==> s == ""
    ensures s != "" ==> r == [s[0]]
  {
    if s == "" then "" else s[..1]
  }

  /** `name.split(' ')` of words joined by single spaces gives the words back. */
  lemma ThreeWords(a: string, b: string, c: string)
    requires ' ' !in a && ' ' !in b && ' ' !in c
    ensures Split(a + " " + b + " " + c, ' ') == [a, b, c]
  {
    SplitNoSep(c, ' ');
    SplitAtSep(b, ' ', c);
    assert b + " " + c == b + [' '] + c;
    SplitAtSep(a, ' ', b + " " + c);
    assert a + " " + b + " " + c == a + [' '] + (b + " " + c);
  }

  lemma TwoWords(a: string, b: string)
    requires ' ' !in a && ' ' !in b
    ensures Split(a + " " + b, ' ') == [a, b]
  {
    SplitNoSep(b, ' ');
    SplitAtSep(a, ' ', b);
    assert a + " " + b == a + [' '] + b;
  }

  /** A string ending in the separator has an empty last piece. */
  lemma {:induction false} SplitEndsWithSep(s: string, sep: char)
    requires s != [] && s[|s| - 1] == sep
    ensures Split(s, sep)[|Split(s, sep)| - 1] == ""
    decreases |s|
  {
    if |s| == 1 {
      assert s[1..] == [];
    } else {
      var t := s[1..];
      assert t[|t| - 1] == sep;
      SplitEndsWithSep(t, sep);
      SplitMany(t, sep);
      assert sep in t;
    }
  }

  // ---------------------------------------------------------------------------------------
  // Description bullets

  /** `line.trim().replace(/^- /, '')`: the trimmed line without one leading "- ". */
  function StripDash(t: string): (r: string)
    ensures |t| >= 2 && t[..2] == "- " ==> r == t[2..]
    ensures !(|t| >= 2 && t[..2] == "- ") ==> r == t
  {
    if |t| >= 2 && t[..2] == "- " then t[2..] else t
  }

  /** The bullets of some lines: `line.trim() && <li>…</li>` renders nothing for a line that
      trims to "", so only the other lines give a bullet, in their order. */
  function BulletsOf(lines: seq<string>): (r: seq<string>)
    ensures |r| <= |lines|
    decreases |lines|
  {
    if lines == [] then []
    else
      var t := Trim(lines[0]);
      (if t == "" then [] else [StripDash(t)]) + BulletsOf(lines[1..])
  }

  /** `description.split('\n').map(…)`. */
  function Bullets(description: string): (r: seq<string>)
    ensures |r| <= |Split(description, '\n')|
  {
    BulletsOf(Split(description, '\n'))
  }

  /** What a bullet can be: not empty, within one line, and not ending in white space. */
  predicate IsBullet(b: string) {
    b != [] && '\n' !in b && !IsWhitespace(b[|b| - 1])
  }

  /** Stripping the dash from a trimmed non-empty line leaves a bullet: the line ends with a
      character that is not white space, so it is not "- " itself. */
  lemma StripDashOfTrimmed(line: string)
    requires '\n' !in line && Trim(line) != ""
    ensures IsBullet(StripDash(Trim(line)))
  {
    var t := Trim(line);
    TrimChars(line);
    if |t| >= 2 && t[..2] == "- " {
      assert t[1] == ' ';
      assert |t| > 2;
      assert StripDash(t)[|StripDash(t)| - 1] == t[|t| - 1];
    }
  }

  /** No bullet is empty or spans lines, whatever the description. */
  lemma {:induction false} BulletsAreBullets(lines: seq<string>)
    requires forall i :: 0 <= i < |lines| ==> '\n' !in lines[i]
    ensures forall k :: 0 <= k < |BulletsOf(lines)| ==> IsBullet(BulletsOf(lines)[k])
    decreases |lines|
  {
    if lines != [] {
      BulletsAreBullets(lines[1..]);
      if Trim(lines[0]) != "" {
        StripDashOfTrimmed(lines[0]);
      }
    }
  }

  lemma DescriptionBulletsAreBullets(description: string)
    ensures forall k :: 0 <= k < |Bullets(description)| ==> IsBullet(Bullets(description)[k])
  {
    BulletsAreBullets(Split(description, '\n'));
  }

  /** The bullets of consecutive groups of lines are the bullets of each group in turn. */
  lemma {:induction false} BulletsOfAppend(xs: seq<string>, ys: seq<string>)
    ensures BulletsOf(xs + ys) == BulletsOf(xs) + BulletsOf(ys)
    decreases |xs|
  {
    if xs != [] {
      var t := Trim(xs[0]);
      var head := if t == "" then [] else [StripDash(t)];
      assert (xs + ys)[0] == xs[0];
      assert (xs + ys)[1..] == xs[1..] + ys;
      assert BulletsOf(xs + ys) == head + BulletsOf(xs[1..] + ys);
      BulletsOfAppend(xs[1..], ys);
      assert BulletsOf(xs) == head + BulletsOf(xs[1..]);
    } else {
      assert xs + ys == ys;
    }
  }

  /** A line that trims to "" gives no bullet, wherever it is. */
  lemma BlankLineDropped(xs: seq<string>, blank: string, ys: seq<string>)
    requires AllWhitespace(blank)
    ensures BulletsOf(xs + [blank] + ys) == BulletsOf(xs + ys)
  {
    BulletsOfAppend(xs + [blank], ys);
    BulletsOfAppend(xs, [blank]);
    BulletsOfAppend(xs, ys);
    BlankLineGivesNothing(blank);
    assert BulletsOf(xs) + [] == BulletsOf(xs);
  }

  lemma BlankLineGivesNothing(blank: string)
    requires AllWhitespace(blank)
    ensures BulletsOf([blank]) == []
  {
    assert Trim(blank) == "";
    assert [blank][1..] == [];
  }

  /** A clean bullet: a bullet that also does not start with white space or with "- ". */
  predicate IsCleanBullet(b: string) {
    IsBullet(b) && !IsWhitespace(b[0]) && !(|b| >= 2 && b[..2] == "- ")
  }

  /** A clean bullet written as a "- " line reads back as itself, and so does one written
      bare. */
  lemma BulletLineReadsBack(b: string)
    requires IsCleanBullet(b)
    ensures BulletsOf(["- " + b]) == [b]
    ensures BulletsOf([b]) == [b]
  {
    var line := "- " + b;
    assert Trim(b) == b by { TrimOfTrimmed(b); }
    assert StripDash(b) == b;
    assert Trim(line) == line by {
      assert line[0] == '-' && line[|line| - 1] == b[|b| - 1];
      TrimOfTrimmed(line);
    }
    assert StripDash(line) == b by {
      assert line[..2] == "- " && line[2..] == b;
    }
    assert BulletsOf([line]) == [b] by { assert [line][1..] == []; }
    assert BulletsOf([b]) == [b] by { assert [b][1..] == []; }
  }

  /** The lines "- b" for each bullet. */
  function DashLines(bs: seq<string>): (r: seq<string>)
    ensures |r| == |bs|
    ensures forall k :: 0 <= k < |bs| ==> r[k] == "- " + bs[k]
  {
    seq(|bs|, k requires 0 <= k < |bs| => "- " + bs[k])
  }

  /** Writing clean bullets as a "- " list, one per line, and deriving the bullets of that
      description gives them back. */
  lemma BulletListRoundTrip(bs: seq<string>)
    requires bs != []
    requires forall k :: 0 <= k < |bs| ==> IsCleanBullet(bs[k])
    ensures Bullets(Join(DashLines(bs), "\n")) == bs
  {
    var lines := DashLines(bs);
    forall k | 0 <= k < |lines| ensures '\n' !in lines[k] {
      assert lines[k] == "- " + bs[k];
    }
    SplitJoin(lines, '\n');
    DashLinesBullets(bs);
  }

  lemma {:induction false} DashLinesBullets(bs: seq<string>)
    requires forall k :: 0 <= k < |bs| ==> IsCleanBullet(bs[k])
    ensures BulletsOf(DashLines(bs)) == bs
    decreases |bs|
  {
    if bs != [] {
      var tail := bs[1..];
      forall k | 0 <= k < |tail| ensures IsCleanBullet(tail[k]) {
        assert tail[k] == bs[k + 1];
      }
      DashLinesBullets(tail);
      DashLinesCons(bs);
      BulletsOfAppend(["- " + bs[0]], DashLines(tail));
      BulletLineReadsBack(bs[0]);
      assert BulletsOf(DashLines(bs)) == [bs[0]] + tail;
      assert [bs[0]] + tail == bs;
    }
  }

  lemma DashLinesCons(bs: seq<string>)
    requires bs != []
    ensures DashLines(bs) == ["- " + bs[0]] + DashLines(bs[1..])
  {
    var lines := DashLines(bs);
    var rest := DashLines(bs[1..]);
    assert |lines| == 1 + |rest|;
    forall k | 0 <= k < |lines| ensures lines[k] == (["- " + bs[0]] + rest)[k] {
      if k > 0 {
        assert rest[k - 1] == "- " + bs[1..][k - 1];
      }
    }
  }
}
