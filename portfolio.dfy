/** The logic of the portfolio page (app/page.tsx): the portfolio filter and
    its category buttons, and the contact form's validation and submission
    state. */
module PortfolioPage {
  import opened Options
  import opened JsText

  // ---------------------------------------------------------------------
  // Portfolio filter

  const All: string := "All"

  /** A portfolio entry; only its category matters to the page's logic. */
  datatype Project = Project(id: int, title: string, category: string)

  /** The projects of category `c`, in their original order. */
  function OfCategory(projects: seq<Project>, c: string): (r: seq<Project>)
    ensures |r| <= |projects|
    ensures forall i :: 0 <= i < |r| ==> r[i].category == c
    ensures forall p :: p in r <==> p in projects && p.category == c
  {
    if projects == [] then []
    else
      var init := projects[..|projects| - 1];
      var last := projects[|projects| - 1];
      assert projects == init + [last];
      OfCategory(init, c) + (if last.category == c then [last] else [])
  }

  /** The filter keeps the projects' order: it distributes over concatenation. */
  lemma {:induction false} OfCategoryAppend(a: seq<Project>, b: seq<Project>, c: string)
    ensures OfCategory(a + b, c) == OfCategory(a, c) + OfCategory(b, c)
  {
    if b == [] {
      assert a + b == a;
    } else {
      assert (a + b)[..|a + b| - 1] == a + b[..|b| - 1];
      OfCategoryAppend(a, b[..|b| - 1], c);
    }
  }

  /** The filter keeps each matching project as often as it occurs. */
  lemma {:induction false} OfCategoryMultiset(projects: seq<Project>, c: string, p: Project)
    ensures multiset(OfCategory(projects, c))[p] == if p.category == c then multiset(projects)[p] else 0
  {
    if projects != [] {
      var init := projects[..|projects| - 1];
      OfCategoryMultiset(init, c, p);
      assert projects == init + [projects[|projects| - 1]];
    }
  }

  /** `filteredProjects` (lines 196-198). */
  function FilteredProjects(projects: seq<Project>, filterCategory: string): (r: seq<Project>)
    ensures filterCategory == All ==> r == projects
    ensures filterCategory != All ==> r == OfCategory(projects, filterCategory)
  {
    if filterCategory == All then projects else OfCategory(projects, filterCategory)
  }

  function CategoriesOf(projects: seq<Project>): (r: seq<string>)
    ensures |r| == |projects| && forall i :: 0 <= i < |r| ==> r[i] == projects[i].category
  {
    seq(|projects|, i requires 0 <= i < |projects| => projects[i].category)
  }

  /** The distinct elements of `s`, each once, in first-occurrence order (what a `Set` built from `s` iterates in). */
  function Distinct(s: seq<string>): (r: seq<string>)
    ensures forall x :: x in r <==> x in s
    ensures forall i, j :: 0 <= i < j < |r| ==> r[i] != r[j]
  {
    if s == [] then []
    else
      var init := s[..|s| - 1];
      var last := s[|s| - 1];
      assert s == init + [last];
      if last in init then Distinct(init) else Distinct(init) + [last]
  }

  /** First-occurrence order: the distinct elements of any prefix of `s`
      come first in `Distinct(s)`, in the same order. */
  lemma {:induction false} DistinctPrefix(s: seq<string>, k: nat)
    requires k <= |s|
    ensures Distinct(s[..k]) <= Distinct(s)
  {
    if k < |s| {
      var init := s[..|s| - 1];
      assert init[..k] == s[..k];
      DistinctPrefix(init, k);
      assert s == init + [s[|s| - 1]];
    } else {
      assert s[..k] == s;
    }
  }

  /** `categories` (line 200): "All", then every project category once, in
      order of first appearance. */
  function Categories(projects: seq<Project>): (r: seq<string>)
    ensures |r| > 0 && r[0] == All
    ensures forall p :: p in projects ==> p.category in r
    ensures forall i :: 1 <= i < |r| ==> exists p :: p in projects && p.category == r[i]
    ensures forall i, j :: 1 <= i < j < |r| ==> r[i] != r[j]
  {
    var cs := CategoriesOf(projects);
    var d := Distinct(cs);
    assert forall p :: p in projects ==> p.category in cs;
    forall i | 0 <= i < |d| ensures exists p :: p in projects && p.category == d[i] {
      assert d[i] in cs;
      var k :| 0 <= k < |cs| && cs[k] == d[i];
      assert projects[k] in projects;
    }
    [All] + d
  }

  // ---------------------------------------------------------------------
  // The email test: the unanchored pattern `\S+@\S+\.\S+`

  /** `s[from..to]` is a non-empty run of non-whitespace (`\S+`). */
  predicate IsRun(s: string, from: int, to: int) {
    0 <= from < to <= |s| && forall k :: from <= k < to ==> !IsWhitespace(s[k])
  }

  /** The unanchored pattern matches `s[i..j]`, with `@` at `at` and `.` at `dot`. */
  predicate EmailMatchAt(s: string, i: int, at: int, dot: int, j: int) {
    IsRun(s, i, at) && at < |s| && s[at] == '@' &&
    IsRun(s, at + 1, dot) && dot < |s| && s[dot] == '.' &&
    IsRun(s, dot + 1, j)
  }

  ghost predicate MatchesEmailPattern(s: string) {
    exists i, at, dot, j :: EmailMatchAt(s, i, at, dot, j)
  }

  /** The test as the page computes it: some '@' with a non-whitespace
      character before it, then a non-empty whitespace-free stretch, a '.',
      and a non-whitespace character. */
  function LooksLikeEmail(s: string): (r: bool)
    ensures r <==> MatchesEmailPattern(s)
  {
    EmailPatternShortest(s);
    exists at, dot | 0 < at < |s| && at + 1 < dot < |s| - 1 :: ShortestMatch(s, at, dot)
  }

  predicate ShortestMatch(s: string, at: int, dot: int)
    requires 0 < at && at + 1 < dot < |s| - 1
  {
    s[at] == '@' && s[dot] == '.' && !IsWhitespace(s[at - 1]) && !IsWhitespace(s[dot + 1]) &&
    forall k | at < k < dot :: !IsWhitespace(s[k])
  }

  /** A match exists exactly when one with one-character outer runs does. */
  lemma EmailPatternShortest(s: string)
    ensures MatchesEmailPattern(s) <==>
      exists at, dot :: 0 < at && at + 1 < dot < |s| - 1 && ShortestMatch(s, at, dot)
  {
    if MatchesEmailPattern(s) {
      var i, at, dot, j :| EmailMatchAt(s, i, at, dot, j);
      assert ShortestMatch(s, at, dot);
    }
    if exists at, dot :: 0 < at && at + 1 < dot < |s| - 1 && ShortestMatch(s, at, dot) {
      var at, dot :| 0 < at && at + 1 < dot < |s| - 1 && ShortestMatch(s, at, dot);
      assert EmailMatchAt(s, at - 1, at, dot, dot + 2);
    }
  }

  // ---------------------------------------------------------------------
  // Contact form

  datatype FormData = FormData(name: string, email: string, message: string)

  const EmptyForm: FormData := FormData("", "", "")

  const NameRequired: string := "Name is required"
  const EmailRequired: string := "Email is required"
  const EmailInvalid: string := "Email is invalid"
  const MessageRequired: string := "Message is required"

  /** What `validateForm` records for `data` (lines 206-218): a key per
      failing field and nothing else, the email being blank or, untrimmed,
      not matching the pattern. A field is blank when `!field.trim()`,
      which is `AllWhitespace(field)` by `JsText.TrimEmptyIff`. */
  ghost predicate DescribesErrors(data: FormData, errors: map<string, string>) {
    && errors.Keys <= {"name", "email", "message"}
    && ("name" in errors <==> AllWhitespace(data.name))
    && ("name" in errors ==> errors["name"] == NameRequired)
    && ("email" in errors <==> AllWhitespace(data.email) || !MatchesEmailPattern(data.email))
    && ("email" in errors ==> errors["email"] == if AllWhitespace(data.email) then EmailRequired else EmailInvalid)
    && ("message" in errors <==> AllWhitespace(data.message))
    && ("message" in errors ==> errors["message"] == MessageRequired)
  }

  /** The description fixes the errors map: it states all of it. */
  lemma ErrorsDetermined(data: FormData, e1: map<string, string>, e2: map<string, string>)
    requires DescribesErrors(data, e1) && DescribesErrors(data, e2)
    ensures e1 == e2
  {
    assert e1.Keys == e2.Keys;
  }

  /** The form passes exactly when every field is non-blank and the email
      matches the pattern. */
  lemma NoErrorsIff(data: FormData, errors: map<string, string>)
    requires DescribesErrors(data, errors)
    ensures errors == map[] <==>
      !AllWhitespace(data.name) && !AllWhitespace(data.email) && !AllWhitespace(data.message) &&
      MatchesEmailPattern(data.email)
  {
    if errors != map[] {
      var k :| k in errors;
    }
  }

  /** The `errors` object `validateForm` builds field by field. */
  method CollectErrors(data: FormData) returns (errors: map<string, string>)
    ensures DescribesErrors(data, errors)
  {
    errors := map[];
    if AllWhitespace(data.name) {
      errors := errors["name" := NameRequired];
    }
    if AllWhitespace(data.email) {
      errors := errors["email" := EmailRequired];
    } else if !LooksLikeEmail(data.email) {
      errors := errors["email" := EmailInvalid];
    }
    if AllWhitespace(data.message) {
      errors := errors["message" := MessageRequired];
    }
  }

  /** The page component's form state and filter selection. */
  class Portfolio {
    var filterCategory: string
    var formData: FormData
    var formErrors: map<string, string>
    var isLoading: bool

    constructor ()
      ensures filterCategory == All && formData == EmptyForm && formErrors == map[] && !isLoading
    {
      filterCategory, formData, formErrors, isLoading := All, EmptyForm, map[], false;
    }

    /** A category button's `onClick` (line 539). */
    method SelectCategory(category: string)
      modifies this`filterCategory
      ensures filterCategory == category
    {
      filterCategory := category;
    }

    /** The form inputs' `onChange` handlers (lines 657, 674, 691). */
    method EditForm(data: FormData)
      modifies this`formData
      ensures formData == data
    {
      formData := data;
    }

    /** `validateForm` (lines 203-222): records the errors and reports
        whether there were none. */
    method ValidateForm() returns (valid: bool)
      modifies this`formErrors
      ensures DescribesErrors(formData, formErrors)
      ensures valid <==> formErrors == map[]
    {
      var errors := CollectErrors(formData);
      formErrors := errors;
      return |errors| == 0;
    }

    /** `handleSubmit` up to the request (lines 245-258): an invalid form
        stops here with nothing sent and `isLoading` as it was. */
    method BeginSubmit() returns (request: Option<FormData>)
      modifies this`formErrors, this`isLoading
      ensures DescribesErrors(formData, formErrors)
      ensures request.None? <==> formErrors != map[]
      ensures request.None? ==> isLoading == old(isLoading)
      ensures request.Some? ==> request.value == formData && isLoading
    {
      var valid := ValidateForm();
      if !valid {
        return None;
      }
      isLoading := true;
      request := Some(formData);
    }

    /** The rest of `handleSubmit` (lines 261-276): a delivered message
        resets the form and its errors; a failed one keeps them. */
    method CompleteSubmit(delivered: bool)
      modifies this`formData, this`formErrors, this`isLoading
      ensures !isLoading
      ensures delivered ==> formData == EmptyForm && formErrors == map[]
      ensures !delivered ==> formData == old(formData) && formErrors == old(formErrors)
    {
      if delivered {
        formData := EmptyForm;
        formErrors := map[];
      }
      isLoading := false;
    }
  }

  /** The page's sample projects, as a concrete input. */
  const SampleProjects: seq<Project> := [
    Project(1, "E-Commerce Platform", "Full-Stack"),
    Project(2, "Data Analytics Dashboard", "Data Analysis"),
    Project(3, "Mobile App UI/UX", "UI/UX")
  ]

  /** One more element extends the distinct list only when it is new. */
  lemma DistinctSnoc(s: seq<string>, x: string)
    ensures Distinct(s + [x]) == if x in s then Distinct(s) else Distinct(s) + [x]
  {
    assert (s + [x])[..|s|] == s;
  }

  /** The sample's categories are already distinct. */
  lemma SampleDistinct(a: string, b: string, c: string)
    requires a != b && a != c && b != c
    ensures Distinct([a, b, c]) == [a, b, c]
  {
    DistinctSnoc([], a);
    assert [] + [a] == [a];
    DistinctSnoc([a], b);
    assert [a] + [b] == [a, b];
    DistinctSnoc([a, b], c);
    assert [a, b] + [c] == [a, b, c];
  }

  lemma SampleCategories()
    ensures Categories(SampleProjects) == [All, "Full-Stack", "Data Analysis", "UI/UX"]
  {
    var cs := CategoriesOf(SampleProjects);
    assert cs == ["Full-Stack", "Data Analysis", "UI/UX"];
    SampleDistinct("Full-Stack", "Data Analysis", "UI/UX");
  }

  lemma SampleFilter()
    ensures FilteredProjects(SampleProjects, "UI/UX") == [SampleProjects[2]]
    ensures FilteredProjects(SampleProjects, All) == SampleProjects
  {
    var ps := SampleProjects;
    assert ps[..1][..0] == [] && ps[..2][..1] == ps[..1] && ps[..3][..2] == ps[..2] && ps[..3] == ps;
    assert OfCategory(ps[..1], "UI/UX") == [];
    assert OfCategory(ps[..2], "UI/UX") == [];
  }
}
