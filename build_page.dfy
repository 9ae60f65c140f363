/** The pure logic inside the resume builder page: normalising extracted work entries,
    parsing the comma-separated skills box, the edits the manual form applies, the data the
    form submits, the request sent for an ATS score, the key of a pending AI suggestion,
    the exported file's name and the template catalogue. */
module BuildPage {
  import opened Wrappers
  import opened JsString
  import opened ResumeTypes
  import opened CalculateAtsScore

  // ---------------------------------------------------------------------------------------
  // Work-experience normalisation after extraction (upload and re-parse)

  /** `!exp.endDate || exp.endDate.toLowerCase() === 'present'`. */
  predicate IsPresentEnd(endDate: Option<string>) {
    !Truthy(endDate) || ToLower(endDate.value) == "present"
  }

  /** One extracted entry with `isCurrent` derived from its end date; a current entry's end
      date becomes "Present", any other keeps its own. */
  function NormalizeWork(w: WorkExperience): (r: WorkExperience)
    ensures r.isCurrent == Some(IsPresentEnd(w.endDate))
    ensures IsPresentEnd(w.endDate) ==> r.endDate == Some("Present")
    ensures !IsPresentEnd(w.endDate) ==> r.endDate == w.endDate
    ensures r.(isCurrent := w.isCurrent, endDate := w.endDate) == w
  {
    var current := IsPresentEnd(w.endDate);
    w.(isCurrent := Some(current), endDate := if current then Some("Present") else w.endDate)
  }

  /** After normalisation the flag and the end date agree: an entry is current exactly when
      its end date is "Present". */
  lemma NormalizeWorkConsistent(w: WorkExperience)
    ensures IsCurrentFlag(NormalizeWork(w)) <==> NormalizeWork(w).endDate == Some("Present")
  {
    assert ToLower("Present") == "present";
  }

  /** Normalising a normalised entry changes nothing. */
  lemma NormalizeWorkIdempotent(w: WorkExperience)
    ensures NormalizeWork(NormalizeWork(w)) == NormalizeWork(w)
  {
    assert ToLower("Present") == "present";
  }

  /** The comparison ignores case: "PRESENT" and "present" both mark a current job. */
  lemma PresentInAnyCase()
    ensures IsPresentEnd(Some("PRESENT")) && IsPresentEnd(Some("present")) && IsPresentEnd(Some(""))
    ensures !IsPresentEnd(Some("2021-05"))
  {
    assert ToLower("PRESENT") == "present";
    assert ToLower("2021-05")[0] == '2';
  }

  /** The extracted record with every work entry normalised, in place and in order. */
  function NormalizeExtracted(d: ResumeData): (r: ResumeData)
    ensures |r.workExperience| == |d.workExperience|
    ensures forall i :: 0 <= i < |d.workExperience| ==> r.workExperience[i] == NormalizeWork(d.workExperience[i])
    ensures r.(workExperience := d.workExperience) == d
  {
    d.(workExperience := seq(|d.workExperience|, i requires 0 <= i < |d.workExperience| => NormalizeWork(d.workExperience[i])))
  }

  lemma NormalizeExtractedIdempotent(d: ResumeData)
    ensures NormalizeExtracted(NormalizeExtracted(d)) == NormalizeExtracted(d)
  {
    var once := NormalizeExtracted(d);
    forall i | 0 <= i < |d.workExperience|
      ensures NormalizeWork(once.workExperience[i]) == once.workExperience[i]
    {
      NormalizeWorkIdempotent(d.workExperience[i]);
    }
  }

  // ---------------------------------------------------------------------------------------
  // Skills parsing

  function TrimAll(xs: seq<string>): (r: seq<string>)
    ensures |r| == |xs|
    ensures forall i :: 0 <= i < |xs| ==> r[i] == Trim(xs[i])
  {
    seq(|xs|, i requires 0 <= i < |xs| => Trim(xs[i]))
  }

  /** `xs.filter(x => x !== '')`. */
  function DropEmpty(xs: seq<string>): (r: seq<string>)
    ensures forall i :: 0 <= i < |r| ==> r[i] != "" && r[i] in xs
    ensures |r| <= |xs|
    decreases |xs|
  {
    if xs == [] then []
    else if xs[0] == "" then DropEmpty(xs[1..])
    else [xs[0]] + DropEmpty(xs[1..])
  }

  /** `s.split(',').map(skill => skill.trim()).filter(skill => skill !== '')`. */
  function SplitSkills(s: string): (r: seq<string>)
    ensures forall i :: 0 <= i < |r| ==> r[i] != "" && ',' !in r[i]
  {
    var trimmed := TrimAll(Split(s, ','));
    TrimmedPiecesClean(Split(s, ','));
    DropEmpty(trimmed)
  }

  /** Every parsed skill is also its own trim. */
  lemma SplitSkillsTrimmed(s: string)
    ensures forall i :: 0 <= i < |SplitSkills(s)| ==> Trim(SplitSkills(s)[i]) == SplitSkills(s)[i]
  {
    var pieces := Split(s, ',');
    TrimmedPiecesClean(pieces);
    var r := SplitSkills(s);
    assert r == DropEmpty(TrimAll(pieces));
    forall i | 0 <= i < |r| ensures Trim(r[i]) == r[i] {
      assert r[i] in TrimAll(pieces);
      assert IsCleanPiece(r[i]);
    }
  }

  /** A trimmed piece of a split on ',' has no comma and is its own trim. */
  predicate IsCleanPiece(x: string) {
    ',' !in x && Trim(x) == x
  }

  lemma TrimmedPiecesClean(pieces: seq<string>)
    requires forall i :: 0 <= i < |pieces| ==> ',' !in pieces[i]
    ensures forall x :: x in TrimAll(pieces) ==> IsCleanPiece(x)
  {
    var trimmed := TrimAll(pieces);
    forall x | x in trimmed ensures IsCleanPiece(x) {
      var j :| 0 <= j < |pieces| && trimmed[j] == x;
      TrimChars(pieces[j]);
      TrimIdempotent(pieces[j]);
    }
  }

  /** `parseSkillsInput`: a blank box gives no skills, anything else is split. */
  function ParseSkillsInput(skillsInput: string): (r: seq<string>)
    ensures AllWhitespace(skillsInput) ==> r == []
    ensures !AllWhitespace(skillsInput) ==> r == SplitSkills(skillsInput)
  {
    if Trim(skillsInput) == "" then [] else SplitSkills(skillsInput)
  }

  lemma {:induction false} DropEmptyAllEmpty(xs: seq<string>)
    requires forall i :: 0 <= i < |xs| ==> xs[i] == ""
    ensures DropEmpty(xs) == []
    decreases |xs|
  {
    if xs != [] {
      DropEmptyAllEmpty(xs[1..]);
    }
  }

  lemma {:induction false} SplitAllWhitespace(s: string, sep: char)
    requires AllWhitespace(s)
    ensures forall i :: 0 <= i < |Split(s, sep)| ==> AllWhitespace(Split(s, sep)[i])
    decreases |s|
  {
    if s != [] {
      SplitAllWhitespace(s[1..], sep);
    }
  }

  /** The blank-box branch of `parseSkillsInput` is redundant: splitting a blank box
      already gives no skills, so the page's two ways of parsing agree. */
  lemma SplitBlankSkills(s: string)
    requires AllWhitespace(s)
    ensures SplitSkills(s) == []
  {
    var pieces := Split(s, ',');
    SplitAllWhitespace(s, ',');
    DropEmptyAllEmpty(TrimAll(pieces));
  }

  lemma ParseSkillsInputIsSplitSkills(s: string)
    ensures ParseSkillsInput(s) == SplitSkills(s)
  {
    if AllWhitespace(s) {
      SplitBlankSkills(s);
    }
  }

  /** A skill as the parser produces it: non-empty, trimmed, without a comma. */
  predicate IsParsedSkill(x: string) {
    x != [] && ',' !in x && !IsWhitespace(x[0]) && !IsWhitespace(x[|x| - 1])
  }

  /** Joining parsed skills with ", " (how the page could show them in the box) and parsing
      the result gives the same list back. */
  lemma {:induction false} SplitSkillsJoin(xs: seq<string>)
    requires forall i :: 0 <= i < |xs| ==> IsParsedSkill(xs[i])
    ensures SplitSkills(Join(xs, ", ")) == xs
    decreases |xs|
  {
    if xs == [] {
      assert Split("", ',') == [""];
      assert Trim("") == "";
    } else {
      SplitSkillsPieces(xs, SkillPieces(xs));
    }
  }

  /** The pieces `Split(Join(xs, ", "), ',')` has: the first skill, then each later skill
      behind its space. */
  function SkillPieces(xs: seq<string>): seq<string>
    requires xs != []
  {
    [xs[0]] + seq(|xs| - 1, i requires 0 <= i < |xs| - 1 => " " + xs[i + 1])
  }

  lemma {:induction false} SplitJoinedSkills(xs: seq<string>)
    requires xs != []
    requires forall i :: 0 <= i < |xs| ==> ',' !in xs[i]
    ensures Split(Join(xs, ", "), ',') == SkillPieces(xs)
    decreases |xs|
  {
    if |xs| == 1 {
      SplitNoSep(xs[0], ',');
    } else {
      var rest := xs[1..];
      SplitJoinedSkills(rest);
      var j := Join(rest, ", ");
      assert Join(xs, ", ") == xs[0] + [','] + (" " + j);
      SplitAtSep(xs[0], ',', " " + j);
      var sp := Split(j, ',');
      assert sp == SkillPieces(rest);
      // The piece after the first separator starts with the space in front of `rest[0]`.
      assert (" " + j) == [' '] + j;
      SplitConsNonSep(' ', j, ',');
      assert Split(" " + j, ',') == [" " + rest[0]] + sp[1..];
      assert SkillPieces(xs) == [xs[0]] + ([" " + rest[0]] + sp[1..]);
    }
  }

  lemma SplitConsNonSep(c: char, s: string, sep: char)
    requires c != sep
    ensures Split([c] + s, sep) == [[c] + Split(s, sep)[0]] + Split(s, sep)[1..]
  {
    assert ([c] + s)[1..] == s;
  }

  lemma SplitSkillsPieces(xs: seq<string>, pieces: seq<string>)
    requires xs != []
    requires forall i :: 0 <= i < |xs| ==> IsParsedSkill(xs[i])
    requires pieces == SkillPieces(xs)
    ensures SplitSkills(Join(xs, ", ")) == xs
  {
    SplitJoinedSkills(xs);
    TrimSkillPieces(xs, pieces);
    DropEmptyNone(xs);
  }

  lemma TrimSkillPieces(xs: seq<string>, pieces: seq<string>)
    requires xs != []
    requires forall i :: 0 <= i < |xs| ==> IsParsedSkill(xs[i])
    requires pieces == SkillPieces(xs)
    ensures TrimAll(pieces) == xs
  {
    var trimmed := TrimAll(pieces);
    forall i | 0 <= i < |xs| ensures trimmed[i] == xs[i] {
      SkillPieceAt(xs, i);
      TrimParsedPiece(pieces[i], xs[i]);
    }
  }

  lemma SkillPieceAt(xs: seq<string>, i: nat)
    requires i < |xs|
    ensures SkillPieces(xs)[i] == if i == 0 then xs[0] else " " + xs[i]
  {
  }

  lemma TrimParsedPiece(p: string, x: string)
    requires IsParsedSkill(x) && (p == x || p == " " + x)
    ensures Trim(p) == x
  {
    if p == x {
      TrimOfTrimmed(x);
    } else {
      TrimOfPaddedTrimmed(" ", x);
    }
  }

  lemma {:induction false} DropEmptyNone(xs: seq<string>)
    requires forall i :: 0 <= i < |xs| ==> xs[i] != ""
    ensures DropEmpty(xs) == xs
    decreases |xs|
  {
    if xs != [] {
      DropEmptyNone(xs[1..]);
      assert [xs[0]] + xs[1..] == xs;
    }
  }

  /** Filtering consecutive groups of pieces filters each group in turn: no non-empty piece
      is lost and the order is kept. */
  lemma {:induction false} DropEmptyAppend(xs: seq<string>, ys: seq<string>)
    ensures DropEmpty(xs + ys) == DropEmpty(xs) + DropEmpty(ys)
    decreases |xs|
  {
    if xs == [] {
      assert xs + ys == ys;
    } else {
      assert (xs + ys)[0] == xs[0];
      assert (xs + ys)[1..] == xs[1..] + ys;
      DropEmptyAppend(xs[1..], ys);
    }
  }

  /** One piece is kept exactly when it is not empty. */
  lemma DropEmptySingle(x: string)
    ensures DropEmpty([x]) == if x == "" then [] else [x]
  {
    assert [x][1..] == [];
  }

  /** Every non-empty piece survives the filter. */
  lemma {:induction false} DropEmptyKeeps(xs: seq<string>, x: string)
    requires x in xs && x != ""
    ensures x in DropEmpty(xs)
    decreases |xs|
  {
    if xs[0] != x {
      assert x in xs[1..];
      DropEmptyKeeps(xs[1..], x);
    }
  }

  /** A comma-free box gives its trim as the one skill, or nothing when it trims to "". */
  lemma SplitSkillsNoComma(a: string)
    requires ',' !in a
    ensures SplitSkills(a) == if Trim(a) == "" then [] else [Trim(a)]
  {
    SplitNoSep(a, ',');
    assert TrimAll([a]) == [Trim(a)];
    DropEmptySingle(Trim(a));
  }

  /** The text up to the first comma gives the first skills, the rest of the text the
      others, in order. */
  lemma SplitSkillsAtComma(a: string, b: string)
    requires ',' !in a
    ensures SplitSkills(a + "," + b) == SplitSkills(a) + SplitSkills(b)
  {
    var pb := Split(b, ',');
    assert Split(a + "," + b, ',') == [a] + pb by {
      assert a + "," + b == a + [','] + b;
      SplitAtSep(a, ',', b);
    }
    assert Split(a, ',') == [a] by {
      SplitNoSep(a, ',');
    }
    SkillsOfConsPiece(a, pb);
  }

  /** The skills of a first piece followed by more pieces. */
  lemma SkillsOfConsPiece(a: string, pb: seq<string>)
    ensures DropEmpty(TrimAll([a] + pb)) == DropEmpty(TrimAll([a])) + DropEmpty(TrimAll(pb))
  {
    var ta, tb := TrimAll([a]), TrimAll(pb);
    assert TrimAll([a] + pb) == ta + tb by {
      var t := TrimAll([a] + pb);
      forall i | 0 <= i < |t| ensures t[i] == (ta + tb)[i] {
        if i > 0 {
          assert ([a] + pb)[i] == pb[i - 1];
        }
      }
    }
    DropEmptyAppend(ta, tb);
  }

  /** Two skills around a blank piece: the blank piece vanishes and the skills keep their
      order. */
  lemma SplitSkillsBlankPiece(a: string, w: string, b: string)
    requires IsParsedSkill(a) && IsParsedSkill(b)
    requires AllWhitespace(w)
    ensures SplitSkills(a + "," + w + "," + b) == [a, b]
  {
    var rest := w + "," + b;
    var text := a + "," + rest;
    assert a + "," + w + "," + b == text;
    SkillsAfterFirstComma(a, rest, [b]) by {
      SplitSkillsLeadingBlank(w, b);
      SplitSkillsOne(b);
    }
  }

  /** A parsed skill, a comma and a text giving `tail` give the skill and then `tail`. */
  lemma SkillsAfterFirstComma(a: string, rest: string, tail: seq<string>)
    requires IsParsedSkill(a) && SplitSkills(rest) == tail
    ensures SplitSkills(a + "," + rest) == [a] + tail
  {
    SplitSkillsAtComma(a, rest);
    SplitSkillsOne(a);
  }

  /** A blank piece before the first comma gives no skill. */
  lemma SplitSkillsLeadingBlank(w: string, b: string)
    requires AllWhitespace(w)
    ensures SplitSkills(w + "," + b) == SplitSkills(b)
  {
    SplitSkillsAtComma(w, b);
    SplitBlankSkills(w);
  }

  /** A parsed skill on its own parses to itself. */
  lemma SplitSkillsOne(x: string)
    requires IsParsedSkill(x)
    ensures SplitSkills(x) == [x]
  {
    SplitSkillsNoComma(x);
    TrimOfTrimmed(x);
  }

  // ---------------------------------------------------------------------------------------
  // The manual form

  /** `initialManualFormData`: every text empty, LinkedIn and GitHub present but empty,
      every list empty. */
  const InitialForm := ResumeData("", ContactInfo("", "", Some(""), Some("")), "", [], [], [], [])

  const BlankWork := WorkExperience("", "", "", Some(""), "", Some(false))
  const BlankEducation := Education("", "", "", "")
  const BlankProject := Project("", "")

  /** The "current job" checkbox: checking sets the end date to "Present"; unchecking
      clears it only when it is "Present" and keeps any other date. */
  function ToggleCurrent(w: WorkExperience, checked: bool): (r: WorkExperience)
    ensures r.isCurrent == Some(checked)
    ensures checked ==> r.endDate == Some("Present")
    ensures !checked && w.endDate == Some("Present") ==> r.endDate == Some("")
    ensures !checked && w.endDate != Some("Present") ==> r.endDate == w.endDate
    ensures r.(isCurrent := w.isCurrent, endDate := w.endDate) == w
  {
    var w1 := w.(isCurrent := Some(checked));
    if checked then w1.(endDate := Some("Present"))
    else if w1.endDate == Some("Present") then w1.(endDate := Some(""))
    else w1
  }

  /** Checking and then unchecking "current" loses the end date the entry had before. */
  lemma ToggleOnOffClearsEndDate(w: WorkExperience)
    ensures ToggleCurrent(ToggleCurrent(w, true), false).endDate == Some("")
    ensures ToggleCurrent(ToggleCurrent(w, true), false).isCurrent == Some(false)
  {
  }

  /** Setting the checkbox to the state it already has changes nothing more. */
  lemma ToggleCurrentIdempotent(w: WorkExperience, checked: bool)
    ensures ToggleCurrent(ToggleCurrent(w, checked), checked) == ToggleCurrent(w, checked)
  {
  }

  datatype WorkField = Title | Company | StartDate | EndDate | WorkDescription
  datatype EducationField = Institution | Degree | EducationStart | EducationEnd
  datatype ProjectField = ProjectName | ProjectDescription
  datatype ContactField = Email | Phone | LinkedIn | GitHub

  /** The calls the page makes to `handleManualFormChange`, one constructor per branch it
      takes. Indices come from rendering the lists, so they name an existing entry. */
  datatype FormEdit =
    | SetWorkField(workIndex: nat, workField: WorkField, text: string)
    | SetCurrent(currentIndex: nat, checked: bool)
    | SetEducationField(educationIndex: nat, educationField: EducationField, text: string)
    | SetProjectField(projectIndex: nat, projectField: ProjectField, text: string)
    | SetContactField(contactField: ContactField, text: string)
    | SetName(text: string)
    | SetSummary(text: string)
    | SetSkills(skills: seq<string>)

  predicate EditInRange(d: ResumeData, e: FormEdit) {
    match e
    case SetWorkField(i, _, _) => i < |d.workExperience|
    case SetCurrent(i, _) => i < |d.workExperience|
    case SetEducationField(i, _, _) => i < |d.education|
    case SetProjectField(i, _, _) => i < |d.projects|
    case _ => true
  }

  /** The text a work field holds; the end date may be absent. */
  function WorkText(w: WorkExperience, f: WorkField): Option<string> {
    match f
    case Title => Some(w.title)
    case Company => Some(w.company)
    case StartDate => Some(w.startDate)
    case EndDate => w.endDate
    case WorkDescription => Some(w.description)
  }

  /** `entry[subField] = value` on a work entry: the field holds the value afterwards and
      every other field, the current flag included, is kept. */
  function WithWorkField(w: WorkExperience, f: WorkField, v: string): (r: WorkExperience)
    ensures WorkText(r, f) == Some(v)
    ensures forall g :: g != f ==> WorkText(r, g) == WorkText(w, g)
    ensures r.isCurrent == w.isCurrent
  {
    match f
    case Title => w.(title := v)
    case Company => w.(company := v)
    case StartDate => w.(startDate := v)
    case EndDate => w.(endDate := Some(v))
    case WorkDescription => w.(description := v)
  }

  function EducationText(e: Education, f: EducationField): string {
    match f
    case Institution => e.institution
    case Degree => e.degree
    case EducationStart => e.startDate
    case EducationEnd => e.endDate
  }

  /** `entry[subField] = value` on an education entry. */
  function WithEducationField(e: Education, f: EducationField, v: string): (r: Education)
    ensures EducationText(r, f) == v
    ensures forall g :: g != f ==> EducationText(r, g) == EducationText(e, g)
  {
    match f
    case Institution => e.(institution := v)
    case Degree => e.(degree := v)
    case EducationStart => e.(startDate := v)
    case EducationEnd => e.(endDate := v)
  }

  function ProjectText(p: Project, f: ProjectField): string {
    match f
    case ProjectName => p.name
    case ProjectDescription => p.description
  }

  /** `entry[subField] = value` on a project. */
  function WithProjectField(p: Project, f: ProjectField, v: string): (r: Project)
    ensures ProjectText(r, f) == v
    ensures forall g :: g != f ==> ProjectText(r, g) == ProjectText(p, g)
  {
    match f
    case ProjectName => p.(name := v)
    case ProjectDescription => p.(description := v)
  }

  /** The text a contact field holds; LinkedIn and GitHub may be absent. */
  function ContactText(c: ContactInfo, f: ContactField): Option<string> {
    match f
    case Email => Some(c.email)
    case Phone => Some(c.phone)
    case LinkedIn => c.linkedin
    case GitHub => c.github
  }

  /** `contactInfo[subField] = value`. */
  function WithContactField(c: ContactInfo, f: ContactField, v: string): (r: ContactInfo)
    ensures ContactText(r, f) == Some(v)
    ensures forall g :: g != f ==> ContactText(r, g) == ContactText(c, g)
  {
    match f
    case Email => c.(email := v)
    case Phone => c.(phone := v)
    case LinkedIn => c.(linkedin := Some(v))
    case GitHub => c.(github := Some(v))
  }

  /** The form after one edit: only the addressed entry of the addressed list, or the
      addressed top-level field, changes. */
  function ApplyEdit(d: ResumeData, e: FormEdit): (r: ResumeData)
    requires EditInRange(d, e)
    ensures e.SetCurrent? ==>
              && r.workExperience == d.workExperience[e.currentIndex := ToggleCurrent(d.workExperience[e.currentIndex], e.checked)]
              && r.(workExperience := d.workExperience) == d
    ensures e.SetWorkField? ==>
              && r.workExperience == d.workExperience[e.workIndex := WithWorkField(d.workExperience[e.workIndex], e.workField, e.text)]
              && r.(workExperience := d.workExperience) == d
    ensures e.SetEducationField? ==>
              && r.education == d.education[e.educationIndex := WithEducationField(d.education[e.educationIndex], e.educationField, e.text)]
              && r.(education := d.education) == d
    ensures e.SetProjectField? ==>
              && r.projects == d.projects[e.projectIndex := WithProjectField(d.projects[e.projectIndex], e.projectField, e.text)]
              && r.(projects := d.projects) == d
    ensures e.SetContactField? ==>
              && r.contactInfo == WithContactField(d.contactInfo, e.contactField, e.text)
              && r.(contactInfo := d.contactInfo) == d
    ensures e.SetName? ==> r == d.(name := e.text)
    ensures e.SetSummary? ==> r == d.(summary := e.text)
    ensures e.SetSkills? ==> r == d.(skills := e.skills)
  {
    match e
    case SetWorkField(i, f, v) =>
      d.(workExperience := d.workExperience[i := WithWorkField(d.workExperience[i], f, v)])
    case SetCurrent(i, checked) =>
      d.(workExperience := d.workExperience[i := ToggleCurrent(d.workExperience[i], checked)])
    case SetEducationField(i, f, v) =>
      d.(education := d.education[i := WithEducationField(d.education[i], f, v)])
    case SetProjectField(i, f, v) =>
      d.(projects := d.projects[i := WithProjectField(d.projects[i], f, v)])
    case SetContactField(f, v) => d.(contactInfo := WithContactField(d.contactInfo, f, v))
    case SetName(v) => d.(name := v)
    case SetSummary(v) => d.(summary := v)
    case SetSkills(xs) => d.(skills := xs)
  }

  /** A field edit on a work entry writes the text into that field of that entry only:
      the entry's other fields and every other entry are kept. */
  lemma WorkEditWritesField(d: ResumeData, i: nat, f: WorkField, v: string)
    requires i < |d.workExperience|
    ensures var r := ApplyEdit(d, SetWorkField(i, f, v)).workExperience;
            && |r| == |d.workExperience|
            && WorkText(r[i], f) == Some(v)
            && (forall g :: g != f ==> WorkText(r[i], g) == WorkText(d.workExperience[i], g))
            && r[i].isCurrent == d.workExperience[i].isCurrent
            && (forall j :: 0 <= j < |r| && j != i ==> r[j] == d.workExperience[j])
  {
  }

  /** The same for an education entry. */
  lemma EducationEditWritesField(d: ResumeData, i: nat, f: EducationField, v: string)
    requires i < |d.education|
    ensures var r := ApplyEdit(d, SetEducationField(i, f, v)).education;
            && |r| == |d.education|
            && EducationText(r[i], f) == v
            && (forall g :: g != f ==> EducationText(r[i], g) == EducationText(d.education[i], g))
            && (forall j :: 0 <= j < |r| && j != i ==> r[j] == d.education[j])
  {
  }

  /** The same for a project. */
  lemma ProjectEditWritesField(d: ResumeData, i: nat, f: ProjectField, v: string)
    requires i < |d.projects|
    ensures var r := ApplyEdit(d, SetProjectField(i, f, v)).projects;
            && |r| == |d.projects|
            && ProjectText(r[i], f) == v
            && (forall g :: g != f ==> ProjectText(r[i], g) == ProjectText(d.projects[i], g))
            && (forall j :: 0 <= j < |r| && j != i ==> r[j] == d.projects[j])
  {
  }

  /** A contact edit writes the text into that field and keeps the others. */
  lemma ContactEditWritesField(d: ResumeData, f: ContactField, v: string)
    ensures var c := ApplyEdit(d, SetContactField(f, v)).contactInfo;
            && ContactText(c, f) == Some(v)
            && (forall g :: g != f ==> ContactText(c, g) == ContactText(d.contactInfo, g))
  {
  }

  datatype Section = WorkSection | EducationSection | ProjectSection

  /** `addItem(section)`: one blank entry at the end of the named list. */
  function AddItem(d: ResumeData, section: Section): (r: ResumeData)
    ensures section == WorkSection ==> r == d.(workExperience := d.workExperience + [BlankWork])
    ensures section == EducationSection ==> r == d.(education := d.education + [BlankEducation])
    ensures section == ProjectSection ==> r == d.(projects := d.projects + [BlankProject])
  {
    match section
    case WorkSection => d.(workExperience := d.workExperience + [BlankWork])
    case EducationSection => d.(education := d.education + [BlankEducation])
    case ProjectSection => d.(projects := d.projects + [BlankProject])
  }

  /** Where `splice(start, 1)` starts on a list of `len` entries: a negative start counts
      from the end, and the result is clamped to [0, len]. */
  function SpliceStart(len: nat, start: int): (k: nat)
    ensures k <= len
    ensures 0 <= start <= len ==> k == start
    ensures -(len as int) <= start < 0 ==> k == len + start
    ensures start < -(len as int) ==> k == 0
    ensures start > len ==> k == len
  {
    if start < 0 then (if len + start < 0 then 0 else len + start)
    else if start > len then len
    else start
  }

  /** `xs.splice(index, 1)` on the list itself: at most one entry goes, the one at the
      effective start, and nothing goes when that start is past the end. */
  function RemoveAt<T>(xs: seq<T>, index: int): (r: seq<T>)
    ensures 0 <= index < |xs| ==> r == xs[..index] + xs[index + 1..]
    ensures index >= |xs| ==> r == xs
    ensures -(|xs| as int) <= index < 0 ==> r == xs[..|xs| + index] + xs[|xs| + index + 1..]
    ensures |r| == if xs == [] || index >= |xs| then |xs| else |xs| - 1
  {
    var k := SpliceStart(|xs|, index);
    if k < |xs| then xs[..k] + xs[k + 1..] else xs
  }

  /** Removing a valid index takes out exactly that entry: what is left plus the entry is
      the list as a multiset. */
  lemma RemoveAtMultiset<T>(xs: seq<T>, index: int)
    requires 0 <= index < |xs|
    ensures multiset(RemoveAt(xs, index)) + multiset{xs[index]} == multiset(xs)
  {
    assert xs == xs[..index] + [xs[index]] + xs[index + 1..];
  }

  /** `removeItem(section, index)`. */
  function RemoveItem(d: ResumeData, section: Section, index: int): (r: ResumeData)
    ensures section == WorkSection ==> r == d.(workExperience := RemoveAt(d.workExperience, index))
    ensures section == EducationSection ==> r == d.(education := RemoveAt(d.education, index))
    ensures section == ProjectSection ==> r == d.(projects := RemoveAt(d.projects, index))
  {
    match section
    case WorkSection => d.(workExperience := RemoveAt(d.workExperience, index))
    case EducationSection => d.(education := RemoveAt(d.education, index))
    case ProjectSection => d.(projects := RemoveAt(d.projects, index))
  }

  function SectionLength(d: ResumeData, section: Section): nat {
    match section
    case WorkSection => |d.workExperience|
    case EducationSection => |d.education|
    case ProjectSection => |d.projects|
  }

  /** Removing the entry just added, by its index or by -1, gives the form back. */
  lemma RemoveUndoesAdd(d: ResumeData, section: Section)
    ensures RemoveItem(AddItem(d, section), section, SectionLength(d, section)) == d
    ensures RemoveItem(AddItem(d, section), section, -1) == d
  {
    match section
    case WorkSection =>
      assert (d.workExperience + [BlankWork])[..|d.workExperience|] == d.workExperience;
    case EducationSection =>
      assert (d.education + [BlankEducation])[..|d.education|] == d.education;
    case ProjectSection =>
      assert (d.projects + [BlankProject])[..|d.projects|] == d.projects;
  }

  // ---------------------------------------------------------------------------------------
  // Form submission and the score request

  /** `exp.isCurrent ? 'Present' : exp.endDate`. */
  function SubmitWork(w: WorkExperience): (r: WorkExperience)
    ensures IsCurrentFlag(w) ==> r == w.(endDate := Some("Present"))
    ensures !IsCurrentFlag(w) ==> r == w
  {
    w.(endDate := if IsCurrentFlag(w) then Some("Present") else w.endDate)
  }

  /** The record `handleFormSubmit` hands to `setResumeData`: the form with its skills
      taken from the skills box and every current entry ending "Present". */
  function SubmitData(form: ResumeData, skillsInput: string): (r: ResumeData)
    ensures r.skills == ParseSkillsInput(skillsInput)
    ensures |r.workExperience| == |form.workExperience|
    ensures forall i :: 0 <= i < |form.workExperience| ==> r.workExperience[i] == SubmitWork(form.workExperience[i])
    ensures r.(skills := form.skills, workExperience := form.workExperience) == form
  {
    var skills := if Trim(skillsInput) != "" then SplitSkills(skillsInput) else [];
    form.(skills := skills,
          workExperience := seq(|form.workExperience|, i requires 0 <= i < |form.workExperience| => SubmitWork(form.workExperience[i])))
  }

  /** In submitted data a current entry always ends "Present", and a non-current one keeps
      the end date and the flag it had in the form. */
  lemma SubmittedCurrentEntries(form: ResumeData, skillsInput: string, i: nat)
    requires i < |form.workExperience|
    ensures var w := SubmitData(form, skillsInput).workExperience[i];
            && (IsCurrentFlag(w) ==> w.endDate == Some("Present"))
            && (!IsCurrentFlag(w) ==> w == form.workExperience[i])
  {
  }

  /** `{...exp, endDate: exp.isCurrent ? undefined : exp.endDate}` in the schema's shape. */
  function ScoreWorkOf(w: WorkExperience): (r: ScoreWork)
    ensures IsCurrentFlag(w) ==> r.endDate.None?
    ensures !IsCurrentFlag(w) ==> r.endDate == w.endDate
    ensures r.title == w.title && r.company == w.company && r.startDate == w.startDate
    ensures r.description == w.description
  {
    ScoreWork(w.title, w.company, w.startDate, if IsCurrentFlag(w) then None else w.endDate, w.description)
  }

  /** The input of the ATS score call: no contact details and no projects, current jobs
      sent without an end date. */
  function ScoreRequest(d: ResumeData): (r: AtsScoreInput)
    ensures r.name == d.name && r.summary == d.summary && r.skills == d.skills
    ensures r.education == d.education
    ensures |r.workExperience| == |d.workExperience|
    ensures forall i :: 0 <= i < |d.workExperience| ==> r.workExperience[i] == ScoreWorkOf(d.workExperience[i])
  {
    AtsScoreInput(d.name, d.summary, d.skills,
      seq(|d.workExperience|, i requires 0 <= i < |d.workExperience| => ScoreWorkOf(d.workExperience[i])),
      d.education)
  }

  /** For normalised data, the request carries an end date exactly for the entries that
      did not end "Present". */
  lemma ScoreRequestOfNormalized(d: ResumeData, i: nat)
    requires i < |d.workExperience|
    ensures var n := NormalizeExtracted(d);
            ScoreRequest(n).workExperience[i].endDate.None? <==> n.workExperience[i].endDate == Some("Present")
  {
    NormalizeWorkConsistent(d.workExperience[i]);
  }

  // ---------------------------------------------------------------------------------------
  // AI suggestions

  datatype FieldType = SummaryField | SkillsField | ExperienceDescription | ProjectDescriptionField

  function FieldTypeName(f: FieldType): (r: string)
    ensures '-' !in r
  {
    match f
    case SummaryField => "summary"
    case SkillsField => "skills"
    case ExperienceDescription => "experienceDescription"
    case ProjectDescriptionField => "projectDescription"
  }

  function DigitChar(d: nat): (c: char)
    requires d < 10
    ensures '0' <= c <= '9' && c as int - '0' as int == d
  {
    ('0' as int + d) as char
  }

  /** A number's decimal representation, as a template literal prints it. */
  function NatToString(n: nat): (r: string)
    ensures |r| >= 1 && (n >= 10 ==> |r| >= 2)
    ensures forall i :: 0 <= i < |r| ==> '0' <= r[i] <= '9'
  {
    if n < 10 then [DigitChar(n)] else NatToString(n / 10) + [DigitChar(n % 10)]
  }

  lemma {:induction false} NatToStringInjective(a: nat, b: nat)
    requires NatToString(a) == NatToString(b)
    ensures a == b
    decreases a
  {
    var s := NatToString(a);
    if a >= 10 && b >= 10 {
      assert s[..|s| - 1] == NatToString(a / 10) && s[..|s| - 1] == NatToString(b / 10);
      NatToStringInjective(a / 10, b / 10);
      assert DigitChar(a % 10) == DigitChar(b % 10);
    }
  }

  /** The key of the field a suggestion is pending for: the field type, followed by
      "-<index>" when an entry index is given. */
  function SuggestionKey(f: FieldType, index: Option<nat>): (r: string)
    ensures index.None? ==> r == FieldTypeName(f)
    ensures index.Some? ==> r == FieldTypeName(f) + "-" + NatToString(index.value)
  {
    if index.Some? then FieldTypeName(f) + "-" + NatToString(index.value) else FieldTypeName(f)
  }

  lemma SplitAtFirst(a: string, b: string, a': string, b': string, c: char)
    requires c !in a && c !in a'
    requires a + [c] + b == a' + [c] + b'
    ensures a == a' && b == b'
  {
    var s := a + [c] + b;
    assert s[|a|] == c && s[|a'|] == c;
    assert |a| == |a'|;
    assert a == s[..|a|] && a' == s[..|a'|];
    assert b == s[|a| + 1..] && b' == s[|a'| + 1..];
  }

  /** Distinct fields, or distinct entries of one field, never share a pending-suggestion
      key, so the spinner shows on exactly the button that was pressed. */
  lemma SuggestionKeyInjective(f: FieldType, i: Option<nat>, g: FieldType, j: Option<nat>)
    requires SuggestionKey(f, i) == SuggestionKey(g, j)
    ensures f == g && i == j
  {
    var k := SuggestionKey(f, i);
    if i.Some? && j.Some? {
      SplitAtFirst(FieldTypeName(f), NatToString(i.value), FieldTypeName(g), NatToString(j.value), '-');
      NatToStringInjective(i.value, j.value);
    }
  }

  lemma SuggestionKeyExamples()
    ensures SuggestionKey(ExperienceDescription, Some(2)) == "experienceDescription-2"
    ensures SuggestionKey(ProjectDescriptionField, Some(12)) == "projectDescription-12"
    ensures SuggestionKey(SummaryField, None) == "summary"
  {
    assert NatToString(12) == NatToString(1) + [DigitChar(2)];
  }

  /** The request for a field suggestion: the name always (when non-empty), the summary
      unless the summary itself is asked for, the skills text unless skills are asked for;
      empty texts are sent as absent. */
  datatype SuggestRequest = SuggestRequest(
    targetJobRole: string,
    fieldType: FieldType,
    existingName: Option<string>,
    existingSummary: Option<string>,
    existingSkillsText: Option<string>)

  /** `x || undefined`. */
  function NonEmpty(x: string): (r: Option<string>)
    ensures r.Some? <==> x != ""
    ensures r.Some? ==> r.value == x
  {
    if x != "" then Some(x) else None
  }

  function MakeSuggestRequest(jobRole: string, f: FieldType, form: ResumeData, skillsInput: string): (r: SuggestRequest)
    ensures r.targetJobRole == jobRole && r.fieldType == f
    ensures r.existingName == NonEmpty(form.name)
    ensures f == SummaryField ==> r.existingSummary.None?
    ensures f != SummaryField ==> r.existingSummary == NonEmpty(form.summary)
    ensures f == SkillsField ==> r.existingSkillsText.None?
    ensures f != SkillsField ==> r.existingSkillsText == NonEmpty(skillsInput)
  {
    SuggestRequest(jobRole, f, NonEmpty(form.name),
      if f != SummaryField then NonEmpty(form.summary) else None,
      if f != SkillsField then NonEmpty(skillsInput) else None)
  }

  // ---------------------------------------------------------------------------------------
  // Export file name and templates

  /** `${name.replace(/\s+/g, '_')}_${templateId}.pdf`. */
  function ExportFilename(name: string, templateId: string): (r: string)
    ensures r == ReplaceWhitespaceRuns(name, "_") + "_" + templateId + ".pdf"
    ensures HasNoWhitespace(templateId) ==> HasNoWhitespace(r)
    ensures |r| >= 5 && r[|r| - 4..] == ".pdf"
  {
    var base := ReplaceWhitespaceRuns(name, "_");
    var r := base + "_" + templateId + ".pdf";
    assert HasNoWhitespace("_") && HasNoWhitespace(".pdf");
    r
  }

  /** A name without white space is used as it is. */
  lemma ExportFilenameKeepsPlainName(name: string, templateId: string)
    requires HasNoWhitespace(name)
    ensures ExportFilename(name, templateId) == name + "_" + templateId + ".pdf"
  {
    ReplaceWhitespaceRunsNoWhitespace(name, "_");
  }

  /** Two words separated by any run of white space give one "_" between them. */
  lemma ExportFilenameJoinsWords(first: string, w: string, rest: string, templateId: string)
    requires first != [] && HasNoWhitespace(first)
    requires w != [] && AllWhitespace(w)
    requires rest != [] && !IsWhitespace(rest[0])
    ensures ExportFilename(first + w + rest, templateId)
            == first + "_" + ReplaceWhitespaceRuns(rest, "_") + "_" + templateId + ".pdf"
  {
    ReplaceWhitespaceRunsCollapse(first, w, rest, "_");
    ReplaceWhitespaceRunsNoWhitespace(first, "_");
  }

  /** Replacing again leaves the file name's stem as it is. */
  lemma ExportStemIdempotent(name: string)
    ensures ReplaceWhitespaceRuns(ReplaceWhitespaceRuns(name, "_"), "_") == ReplaceWhitespaceRuns(name, "_")
  {
    assert HasNoWhitespace("_");
    ReplaceWhitespaceRunsNoWhitespace(ReplaceWhitespaceRuns(name, "_"), "_");
  }

  datatype Template = Template(id: string, name: string)

  /** The template catalogue, in the order the picker lists it. */
  const AvailableTemplates: seq<Template> := [
    Template("modern", "Modern Professional"),
    Template("classic", "Classic Formal"),
    Template("creative", "Creative Minimalist"),
    Template("technical", "Tech Savvy"),
    Template("academic", "Academic Standard"),
    Template("infographic", "Visual Infographic"),
    Template("minimalist", "Clean Minimalist"),
    Template("executive", "Executive"),
    Template("typographic", "Typographic Focus"),
    Template("entry-level", "Entry-Level Friendly")
  ]

  /** `templates.find(t => t.id === id)`: the first template with that id, if any. */
  function FindTemplate(templates: seq<Template>, id: string): (r: Option<Template>)
    ensures r.Some? ==> r.value in templates && r.value.id == id
    ensures r.None? <==> forall t :: t in templates ==> t.id != id
    decreases |templates|
  {
    if templates == [] then None
    else if templates[0].id == id then Some(templates[0])
    else FindTemplate(templates[1..], id)
  }

  predicate DistinctIds(templates: seq<Template>) {
    forall i, j :: 0 <= i < j < |templates| ==> templates[i].id != templates[j].id
  }

  lemma CatalogueIdsDistinct()
    ensures DistinctIds(AvailableTemplates)
  {
  }

  /** With distinct ids, looking up a listed template's id finds that template. */
  lemma {:induction false} FindListedTemplate(templates: seq<Template>, t: Template)
    requires DistinctIds(templates) && t in templates
    ensures FindTemplate(templates, t.id) == Some(t)
    decreases |templates|
  {
    if templates[0] != t {
      var j :| 0 <= j < |templates| && templates[j] == t;
      assert templates[0].id != t.id;
      assert t in templates[1..];
      FindListedTemplate(templates[1..], t);
    }
  }
}
