/** `formatResumeDataToText`: the canonical plain-text rendering of a resume that the
    builder page shows for editing and that re-extraction reads back. */
module ResumeFormatter {
  import opened Wrappers
  import opened JsString
  import opened ResumeTypes

  const NoDataText := "No resume data available."

  /** `exp.endDate || 'Present'`. */
  function WorkEndLabel(w: WorkExperience): string {
    OrElse(w.endDate, "Present")
  }

  function NameLine(r: ResumeData): string {
    "Name: " + r.name + "\n"
  }

  /** A "LinkedIn:" or "GitHub:" line, written only for a non-empty value. */
  function AppendOptional(text: string, heading: string, o: Option<string>): string {
    if Truthy(o) then text + heading + o.value + "\n" else text
  }

  /** The contact lines after the name: email and phone always, LinkedIn and GitHub when
      they are non-empty. */
  function AppendContact(text: string, c: ContactInfo): string {
    var t := text + "Email: " + c.email + "\n" + "Phone: " + c.phone + "\n";
    AppendOptional(AppendOptional(t, "LinkedIn: ", c.linkedin), "GitHub: ", c.github)
  }

  function AppendSummary(text: string, summary: string): string {
    text + "\nSummary:\n" + summary + "\n"
  }

  /** The skills as a bullet list: "- " before the first and "\n- " between the others. */
  function AppendSkills(text: string, skills: seq<string>): string {
    text + "\nSkills:\n- " + Join(skills, "\n- ") + "\n"
  }

  /** The text up to and including the "Work Experience:" header: the name, the contact
      lines, the summary and the skills. */
  function HeadText(r: ResumeData): string {
    var contact := AppendContact(NameLine(r), r.contactInfo);
    AppendSkills(AppendSummary(contact, r.summary), r.skills) + "\nWork Experience:\n"
  }

  /** One work entry: title, company, dates with the "Present" fallback, description,
      then a blank line. */
  function AppendWork(text: string, w: WorkExperience): string {
    text + "  Title: " + w.title + "\n"
      + "  Company: " + w.company + "\n"
      + "  Dates: " + w.startDate + " - " + WorkEndLabel(w) + "\n"
      + "  Description: " + w.description + "\n\n"
  }

  /** One education entry; its end date is printed as it is. */
  function AppendEducation(text: string, e: Education): string {
    text + "  Institution: " + e.institution + "\n"
      + "  Degree: " + e.degree + "\n"
      + "  Dates: " + e.startDate + " - " + e.endDate + "\n\n"
  }

  function AppendProject(text: string, p: Project): string {
    text + "  Name: " + p.name + "\n"
      + "  Description: " + p.description + "\n\n"
  }

  /** `xs.forEach(x => text = append(text, x))`. */
  function Fold<T>(text: string, xs: seq<T>, append: (string, T) -> string): string
    decreases |xs|
  {
    if xs == [] then text else append(Fold(text, xs[..|xs| - 1], append), xs[|xs| - 1])
  }

  /** The text for a resume, or the fixed message when there is none. The "Projects:"
      header and its entries are appended only for a non-empty project list. */
  function Format(d: Option<ResumeData>): string {
    match d
    case None => NoDataText
    case Some(r) =>
      var work := Fold(HeadText(r), r.workExperience, AppendWork);
      var edu := Fold(work + "Education:\n", r.education, AppendEducation);
      if |r.projects| > 0 then Fold(edu + "Projects:\n", r.projects, AppendProject) else edu
  }

  // ---------------------------------------------------------------------------------------
  // The text section by section

  /** The block one work entry contributes. */
  function WorkBlock(w: WorkExperience): string {
    "  Title: " + w.title + "\n"
      + "  Company: " + w.company + "\n"
      + "  Dates: " + w.startDate + " - " + WorkEndLabel(w) + "\n"
      + "  Description: " + w.description + "\n\n"
  }

  function EducationBlock(e: Education): string {
    "  Institution: " + e.institution + "\n"
      + "  Degree: " + e.degree + "\n"
      + "  Dates: " + e.startDate + " - " + e.endDate + "\n\n"
  }

  function ProjectBlock(p: Project): string {
    "  Name: " + p.name + "\n" + "  Description: " + p.description + "\n\n"
  }

  /** The blocks of a list's entries, first to last. */
  function Blocks<T>(xs: seq<T>, block: T -> string): string
    decreases |xs|
  {
    if xs == [] then "" else block(xs[0]) + Blocks(xs[1..], block)
  }

  /** Adding an entry at the end adds its block at the end. */
  lemma {:induction false} BlocksSnoc<T>(xs: seq<T>, x: T, block: T -> string)
    ensures Blocks(xs + [x], block) == Blocks(xs, block) + block(x)
    decreases |xs|
  {
    if xs == [] {
      assert [] + [x] == [x];
    } else {
      assert (xs + [x])[1..] == xs[1..] + [x];
      BlocksSnoc(xs[1..], x, block);
    }
  }

  /** Appending the entries one at a time to a text is writing their blocks after it. */
  lemma {:induction false} FoldIsBlocks<T>(text: string, xs: seq<T>, append: (string, T) -> string, block: T -> string)
    requires forall t, x :: append(t, x) == t + block(x)
    ensures Fold(text, xs, append) == text + Blocks(xs, block)
    decreases |xs|
  {
    if xs != [] {
      var init := xs[..|xs| - 1];
      FoldIsBlocks(text, init, append, block);
      BlocksSnoc(init, xs[|xs| - 1], block);
      assert init + [xs[|xs| - 1]] == xs;
    }
  }

  lemma AppendsAreBlocks()
    ensures forall t, w :: AppendWork(t, w) == t + WorkBlock(w)
    ensures forall t, e :: AppendEducation(t, e) == t + EducationBlock(e)
    ensures forall t, p :: AppendProject(t, p) == t + ProjectBlock(p)
  {
    forall t, w ensures AppendWork(t, w) == t + WorkBlock(w) {
      WorkAppendIsBlock(t, w);
    }
    forall t, e ensures AppendEducation(t, e) == t + EducationBlock(e) {
      EducationAppendIsBlock(t, e);
    }
    forall t, p ensures AppendProject(t, p) == t + ProjectBlock(p) {
      ProjectAppendIsBlock(t, p);
    }
  }

  lemma WorkAppendIsBlock(t: string, w: WorkExperience)
    ensures AppendWork(t, w) == t + WorkBlock(w)
  {
    var lines := [
      "  Title: " + w.title + "\n", "  Company: " + w.company + "\n",
      "  Dates: " + w.startDate + " - " + WorkEndLabel(w) + "\n", "  Description: " + w.description + "\n\n"];
    assert AppendWork(t, w) == t + lines[0] + lines[1] + lines[2] + lines[3];
    assert WorkBlock(w) == lines[0] + lines[1] + lines[2] + lines[3];
    ConcatAssoc4(t, lines[0], lines[1], lines[2], lines[3]);
  }

  lemma EducationAppendIsBlock(t: string, e: Education)
    ensures AppendEducation(t, e) == t + EducationBlock(e)
  {
    var a, b, c := "  Institution: " + e.institution + "\n", "  Degree: " + e.degree + "\n",
      "  Dates: " + e.startDate + " - " + e.endDate + "\n\n";
    assert AppendEducation(t, e) == t + a + b + c;
    assert EducationBlock(e) == a + b + c;
    ConcatAssoc(t, a, b);
    ConcatAssoc(t, a + b, c);
  }

  lemma ProjectAppendIsBlock(t: string, p: Project)
    ensures AppendProject(t, p) == t + ProjectBlock(p)
  {
    var a, b := "  Name: " + p.name + "\n", "  Description: " + p.description + "\n\n";
    assert AppendProject(t, p) == t + a + b;
    assert ProjectBlock(p) == a + b;
    ConcatAssoc(t, a, b);
  }

  /** `t + a + b + c + d` is `t` followed by the four pieces taken together. */
  lemma ConcatAssoc4(t: string, a: string, b: string, c: string, d: string)
    ensures t + a + b + c + d == t + (a + b + c + d)
  {
    ConcatAssoc(t, a, b);
    ConcatAssoc(t, a + b, c);
    ConcatAssoc(t, a + b + c, d);
  }

  /** The projects section: the header and the blocks, or nothing for no projects. */
  function ProjectsText(ps: seq<Project>): (r: string)
    ensures r == "" <==> ps == []
  {
    if |ps| > 0 then "Projects:\n" + Blocks(ps, ProjectBlock) else ""
  }

  /** Everything but the projects section. */
  function BodyText(r: ResumeData): string {
    HeadText(r) + Blocks(r.workExperience, WorkBlock) + "Education:\n" + Blocks(r.education, EducationBlock)
  }

  /** The text of a resume is its head, then one block per job, the "Education:" header and
      one block per education entry, then, only for a non-empty project list, the
      "Projects:" header and one block per project. */
  lemma FormatSections(r: ResumeData)
    ensures Format(Some(r)) == BodyText(r) + ProjectsText(r.projects)
  {
    AppendsAreBlocks();
    FoldIsBlocks(HeadText(r), r.workExperience, AppendWork, WorkBlock);
    var work := HeadText(r) + Blocks(r.workExperience, WorkBlock);
    FoldIsBlocks(work + "Education:\n", r.education, AppendEducation, EducationBlock);
    var edu := BodyText(r);
    if |r.projects| > 0 {
      FoldIsBlocks(edu + "Projects:\n", r.projects, AppendProject, ProjectBlock);
      ConcatAssoc(edu, "Projects:\n", Blocks(r.projects, ProjectBlock));
    }
  }

  /** Jobs whose end date is absent, empty or "Present" print the same: all three end in
      "Present". */
  lemma PresentFallback(w: WorkExperience)
    requires w.endDate == None || w.endDate == Some("") || w.endDate == Some("Present")
    ensures WorkBlock(w) == WorkBlock(w.(endDate := None))
    ensures WorkEndLabel(w) == "Present"
  {
  }

  /** The text depends on the jobs only through their blocks: two resumes that differ only in
      jobs printing alike print alike. */
  lemma SameWorkBlocks(r: ResumeData, ws: seq<WorkExperience>)
    requires |ws| == |r.workExperience|
    requires forall i :: 0 <= i < |ws| ==> WorkBlock(ws[i]) == WorkBlock(r.workExperience[i])
    ensures Format(Some(r.(workExperience := ws))) == Format(Some(r))
  {
    BlocksPointwise(ws, r.workExperience, WorkBlock);
    FormatSections(r);
    FormatSections(r.(workExperience := ws));
  }

  lemma {:induction false} BlocksPointwise<T>(xs: seq<T>, ys: seq<T>, block: T -> string)
    requires |xs| == |ys|
    requires forall i :: 0 <= i < |xs| ==> block(xs[i]) == block(ys[i])
    ensures Blocks(xs, block) == Blocks(ys, block)
    decreases |xs|
  {
    if xs != [] {
      BlocksPointwise(xs[1..], ys[1..], block);
    }
  }

  /** Adding a project to a resume that already has projects adds exactly that project's
      block at the end of the text; adding the first one adds the header and its block. */
  lemma AddProjectAppends(r: ResumeData, p: Project)
    ensures |r.projects| > 0 ==>
              Format(Some(r.(projects := r.projects + [p]))) == Format(Some(r)) + ProjectBlock(p)
    ensures |r.projects| == 0 ==>
              Format(Some(r.(projects := r.projects + [p]))) == Format(Some(r)) + "Projects:\n" + ProjectBlock(p)
  {
    var r1 := r.(projects := r.projects + [p]);
    var body := BodyText(r);
    FormatSections(r);
    FormatSections(r1);
    assert BodyText(r1) == body;
    assert Format(Some(r1)) == body + ProjectsText(r.projects + [p]);
    assert Format(Some(r)) == body + ProjectsText(r.projects);
    ProjectsSnoc(r.projects, p);
    if |r.projects| > 0 {
      ConcatAssoc(body, ProjectsText(r.projects), ProjectBlock(p));
    } else {
      assert Format(Some(r)) == body;
      ConcatAssoc(body, "Projects:\n", ProjectBlock(p));
    }
  }

  lemma ProjectsSnoc(ps: seq<Project>, p: Project)
    ensures |ps| > 0 ==> ProjectsText(ps + [p]) == ProjectsText(ps) + ProjectBlock(p)
    ensures |ps| == 0 ==> ProjectsText(ps + [p]) == "Projects:\n" + ProjectBlock(p)
  {
    BlocksSnoc(ps, p, ProjectBlock);
    if |ps| == 0 {
      assert Blocks(ps, ProjectBlock) == "";
    }
  }

  /** The first three lines: the name, the email and the phone. */
  function ContactHead(r: ResumeData): string {
    NameLine(r) + "Email: " + r.contactInfo.email + "\n" + "Phone: " + r.contactInfo.phone + "\n"
  }

  /** Every resume's text starts with its "Name:", "Email:" and "Phone:" lines, in that order,
      so it never equals the message shown when there is no resume. */
  lemma FormatStartsWithContactHead(r: ResumeData)
    ensures IsPrefix(ContactHead(r), Format(Some(r)))
    ensures Format(Some(r)) != NoDataText
  {
    FormatSections(r);
    var hd := ContactHead(r);
    var h := HeadText(r);
    var w := h + Blocks(r.workExperience, WorkBlock);
    var e := w + "Education:\n";
    var body := BodyText(r);
    HeadStartsWithContactHead(r);
    PrefixConcat(h, Blocks(r.workExperience, WorkBlock));
    PrefixTrans(hd, h, w);
    PrefixConcat(w, "Education:\n");
    PrefixTrans(hd, w, e);
    PrefixConcat(e, Blocks(r.education, EducationBlock));
    PrefixTrans(hd, e, body);
    PrefixConcat(body, ProjectsText(r.projects));
    PrefixTrans(hd, body, Format(Some(r)));
    assert Format(Some(r))[1] == hd[1] == 'a';
  }

  /** The head, up to the "Work Experience:" header, starts with the contact lines. */
  lemma HeadStartsWithContactHead(r: ResumeData)
    ensures IsPrefix(ContactHead(r), HeadText(r))
  {
    var n := NameLine(r);
    var hd := ContactHead(r);
    var c := AppendContact(n, r.contactInfo);
    var s := AppendSummary(c, r.summary);
    var k := AppendSkills(s, r.skills);
    ContactExtends(n, r.contactInfo);
    PrefixConcat(c, "\nSummary:\n" + r.summary + "\n");
    PrefixTrans(hd, c, s);
    PrefixConcat(s, "\nSkills:\n- " + Join(r.skills, "\n- ") + "\n");
    PrefixTrans(hd, s, k);
    PrefixConcat(k, "\nWork Experience:\n");
    PrefixTrans(hd, k, HeadText(r));
  }

  /** The contact lines only add to the text, email and phone first. */
  lemma ContactExtends(text: string, c: ContactInfo)
    ensures IsPrefix(text + "Email: " + c.email + "\n" + "Phone: " + c.phone + "\n", AppendContact(text, c))
  {
    var t := text + "Email: " + c.email + "\n" + "Phone: " + c.phone + "\n";
    var l := AppendOptional(t, "LinkedIn: ", c.linkedin);
    OptionalExtends(t, "LinkedIn: ", c.linkedin);
    OptionalExtends(l, "GitHub: ", c.github);
    PrefixTrans(t, l, AppendContact(text, c));
  }

  /** An optional line is written exactly when its value is non-empty. */
  lemma OptionalExtends(text: string, heading: string, o: Option<string>)
    ensures IsPrefix(text, AppendOptional(text, heading, o))
    ensures AppendOptional(text, heading, o) == text <==> !Truthy(o)
  {
    if Truthy(o) {
      PrefixConcat(text, heading + o.value + "\n");
      assert |AppendOptional(text, heading, o)| > |text|;
    }
  }

  predicate IsPrefix(a: string, b: string) {
    |a| <= |b| && b[..|a|] == a
  }

  lemma PrefixConcat(a: string, b: string)
    ensures IsPrefix(a, a + b)
  {
    assert (a + b)[..|a|] == a;
  }

  lemma PrefixTrans(a: string, b: string, c: string)
    requires IsPrefix(a, b) && IsPrefix(b, c)
    ensures IsPrefix(a, c)
  {
    assert c[..|a|] == c[..|b|][..|a|];
  }

  /** With no skills the Skills section is a lone "- " line; with one skill it is that
      skill's line. */
  lemma SkillsSmall(text: string, x: string)
    ensures AppendSkills(text, []) == text + "\nSkills:\n- \n"
    ensures AppendSkills(text, [x]) == text + "\nSkills:\n- " + x + "\n"
  {
  }

  /** One more skill adds one more "\n- " line to the Skills section. */
  lemma AppendSkillsSnoc(text: string, xs: seq<string>, x: string)
    requires xs != []
    ensures AppendSkills(text, xs + [x]) == text + "\nSkills:\n- " + Join(xs, "\n- ") + "\n- " + x + "\n"
  {
    JoinSnoc(xs, x, "\n- ");
    var h, j := text + "\nSkills:\n- ", Join(xs, "\n- ");
    ConcatAssoc(h, j + "\n- ", x);
    ConcatAssoc(h, j, "\n- ");
  }

  /** The Skills section as a list of lines, one "- skill" line per skill in order. */
  function BulletLines(xs: seq<string>): string
    decreases |xs|
  {
    if xs == [] then "" else BulletLines(xs[..|xs| - 1]) + "- " + xs[|xs| - 1] + "\n"
  }

  /** For every non-empty skill list the section is exactly one bullet line per skill. */
  lemma AppendSkillsIsBulletLines(text: string, xs: seq<string>)
    requires xs != []
    ensures AppendSkills(text, xs) == text + "\nSkills:\n" + BulletLines(xs)
  {
    var j := Join(xs, "\n- ");
    JoinIsBulletLines(xs);
    assert "\nSkills:\n- " == "\nSkills:\n" + "- ";
    ConcatAssoc(text, "\nSkills:\n", "- ");
    ConcatAssoc(text + "\nSkills:\n", "- ", j);
    ConcatAssoc(text + "\nSkills:\n", "- " + j, "\n");
  }

  lemma {:induction false} JoinIsBulletLines(xs: seq<string>)
    requires xs != []
    ensures "- " + Join(xs, "\n- ") + "\n" == BulletLines(xs)
    decreases |xs|
  {
    var ys, x := xs[..|xs| - 1], xs[|xs| - 1];
    assert xs == ys + [x];
    if ys == [] {
      assert Join(xs, "\n- ") == x;
      assert BulletLines(ys) == "";
    } else {
      JoinIsBulletLines(ys);
      JoinSnoc(ys, x, "\n- ");
      assert "\n- " == "\n" + "- ";
      Regroup("- ", Join(ys, "\n- "), "\n", "- ", x);
    }
  }

  /** `d + (j + (n + b) + x) + n` and `(d + j + n) + b + x + n` are the same string. */
  lemma Regroup(d: string, j: string, n: string, b: string, x: string)
    ensures d + (j + (n + b) + x) + n == d + j + n + b + x + n
  {
  }

  /** The formatter as the source writes it: one `text` accumulator, appended to line by
      line, then once per entry of each of the three lists. */
  method FormatResumeDataToText(resumeData: Option<ResumeData>) returns (text: string)
    ensures text == Format(resumeData)
    ensures resumeData.None? ==> text == NoDataText
  {
    if resumeData.None? {
      return NoDataText;
    }
    var r := resumeData.value;
    text := "Name: " + r.name + "\n";
    text := text + "Email: " + r.contactInfo.email + "\n";
    text := text + "Phone: " + r.contactInfo.phone + "\n";
    if Truthy(r.contactInfo.linkedin) {
      text := text + "LinkedIn: " + r.contactInfo.linkedin.value + "\n";
    }
    if Truthy(r.contactInfo.github) {
      text := text + "GitHub: " + r.contactInfo.github.value + "\n";
    }
    assert text == AppendContact(NameLine(r), r.contactInfo);
    text := text + "\nSummary:\n" + r.summary + "\n";
    text := text + "\nSkills:\n- " + Join(r.skills, "\n- ") + "\n";
    text := text + "\nWork Experience:\n";
    assert text == HeadText(r);
    text := AppendWorkEntries(text, r.workExperience);
    text := text + "Education:\n";
    text := AppendEducationEntries(text, r.education);
    if |r.projects| > 0 {
      text := text + "Projects:\n";
      text := AppendProjectEntries(text, r.projects);
    }
  }

  /** `workExperience.forEach(exp => { text += ... })`. */
  method AppendWorkEntries(text0: string, entries: seq<WorkExperience>) returns (text: string)
    ensures text == Fold(text0, entries, AppendWork)
  {
    text := text0;
    var i := 0;
    while i < |entries|
      invariant 0 <= i <= |entries|
      invariant text == Fold(text0, entries[..i], AppendWork)
    {
      var exp := entries[i];
      text := text + "  Title: " + exp.title + "\n";
      text := text + "  Company: " + exp.company + "\n";
      text := text + "  Dates: " + exp.startDate + " - " + OrElse(exp.endDate, "Present") + "\n";
      text := text + "  Description: " + exp.description + "\n\n";
      assert entries[..i + 1][..i] == entries[..i];
      i := i + 1;
    }
    assert entries[..i] == entries;
  }

  /** `education.forEach(edu => { text += ... })`. */
  method AppendEducationEntries(text0: string, entries: seq<Education>) returns (text: string)
    ensures text == Fold(text0, entries, AppendEducation)
  {
    text := text0;
    var i := 0;
    while i < |entries|
      invariant 0 <= i <= |entries|
      invariant text == Fold(text0, entries[..i], AppendEducation)
    {
      var edu := entries[i];
      text := text + "  Institution: " + edu.institution + "\n";
      text := text + "  Degree: " + edu.degree + "\n";
      text := text + "  Dates: " + edu.startDate + " - " + edu.endDate + "\n\n";
      assert entries[..i + 1][..i] == entries[..i];
      i := i + 1;
    }
    assert entries[..i] == entries;
  }

  /** `projects.forEach(proj => { text += ... })`. */
  method AppendProjectEntries(text0: string, entries: seq<Project>) returns (text: string)
    ensures text == Fold(text0, entries, AppendProject)
  {
    text := text0;
    var i := 0;
    while i < |entries|
      invariant 0 <= i <= |entries|
      invariant text == Fold(text0, entries[..i], AppendProject)
    {
      var proj := entries[i];
      text := text + "  Name: " + proj.name + "\n";
      text := text + "  Description: " + proj.description + "\n\n";
      assert entries[..i + 1][..i] == entries[..i];
      i := i + 1;
    }
    assert entries[..i] == entries;
  }
}
