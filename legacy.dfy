/**
  The legacy one-shot renderer (_old/script.js). It loads five content
  documents, gives up quietly unless all five loaded and are truthy, then
  fills the header and four lists by appending child elements in loops.
  The education, languages and experience lists are cleared first; the
  skills list is not.

  A list element is modelled by its children, and `None` stands for an
  element the page lacks. The child elements the renderer builds before
  appending them are values of `Node`.
*/
module Legacy {
  import opened Json
  import opened Localization

  /** The global `lang`, which nothing reassigns. */
  const ResumeLang: Lang := Fr

  /** A child element the renderer appends. */
  datatype Node =
    | Line(text: string)                            // <li> of the education or languages list
    | Para(classes: string, text: string)           // <p> with a class list and text
    | Bullets(classes: string, items: seq<string>)  // <ul> of <li> texts
    | Rule                                          // <hr>
    | Entry(markup: string, children: seq<Node>)    // experience <div class="mb-6">: its innerHTML, then appended children

  const DomainTitleClasses: string := "font-semibold mt-4"
  const SkillBulletClasses: string := "list-disc list-inside ml-4 mt-1"
  const ResponsibilityClasses: string := "list-disc list-inside ml-4 mt-2"
  const ResultClasses: string := "list-disc list-inside ml-4 mt-2 text-green-600"
  const ResultsTitleClasses: string := "font-semibold mt-4"
  const ResultsHeading: string := "Résultats obtenus :"
  const TechClasses: string := "mt-2 font-semibold"
  const TechPrefix: string := "Environnement technique : "
  const EntryHeadingOpen: string := "<h3 class=\"text-xl font-bold\">"
  const EntryHeadingClose: string := "</h3>"
  const RoleOpen: string := "<p class=\"italic\">"
  const ContextOpen: string := "<p class=\"mt-1\">"
  const ProjectOpen: string := "<p class=\"mt-1 font-semibold\">Projet : "
  const ParagraphClose: string := "</p>"

  /** `loadJSON(file)`: the parsed document, or `null` when fetching or parsing failed; it never throws. */
  function LoadJson(fetched: Fetched<Value>): (doc: Value)
    ensures fetched.Failed? ==> doc == Null
    ensures fetched.Ok? ==> doc == fetched.body
  {
    match fetched
    case Ok(body) => body
    case Failed => Null
  }

  /** The part of the page the renderer writes. */
  datatype Sheet = Sheet(
    name: Option<string>,
    role: Option<string>,
    skills: Option<seq<Node>>,
    education: Option<seq<Node>>,
    languages: Option<seq<Node>>,
    experience: Option<seq<Node>>)

  /** Where a render stopped: the sheet as left, and whether the render ran to its end. */
  datatype Outcome = Outcome(sheet: Sheet, completed: bool)

  /** The children appended before a loop ended, and whether it ended without throwing. */
  datatype Partial = Partial(done: seq<Node>, completed: bool)

  // ----- header (_old/script.js:27-28) -----

  /**
    `personal.personal.<field>[lang] || ''`: reading through a null or
    undefined object throws; a falsy entry gives the empty text.
  */
  function HeaderText(personal: Value, field: string, lang: Lang): (r: Completion<string>)
    ensures r.Thrown? <==> Nullish(personal) || Nullish(Member(personal, "personal"))
                           || Nullish(Member(Member(personal, "personal"), field))
    ensures r.Normal? ==> r.value == var entry := Member(Member(Member(personal, "personal"), field), Code(lang));
                                     if Truthy(entry) then ToStr(entry) else ""
  {
    match Get(personal, "personal")
    case Thrown => Thrown
    case Normal(inner) =>
      match Get(inner, field)
      case Thrown => Thrown
      case Normal(entries) =>
        match Get(entries, Code(lang))
        case Thrown => Thrown
        case Normal(entry) => Normal(TextContentOf(Or(entry, Str(""))))
  }

  /** Both header texts; a missing element or a throwing text stops the render. */
  function HeaderStep(s: Sheet, personal: Value, lang: Lang): (r: Outcome)
    ensures r.completed <==> s.name.Some? && s.role.Some?
                             && HeaderText(personal, "name", lang).Normal? && HeaderText(personal, "role", lang).Normal?
    ensures r.completed ==> (r.sheet.name == Some(HeaderText(personal, "name", lang).value)
                             && r.sheet.role == Some(HeaderText(personal, "role", lang).value))
    ensures r.sheet.skills == s.skills && r.sheet.education == s.education
         && r.sheet.languages == s.languages && r.sheet.experience == s.experience
  {
    var nameText := HeaderText(personal, "name", lang);
    if nameText.Thrown? || s.name.None? then Outcome(s, false)
    else
      var named := s.(name := Some(nameText.value));
      var roleText := HeaderText(personal, "role", lang);
      if roleText.Thrown? || named.role.None? then Outcome(named, false)
      else Outcome(named.(role := Some(roleText.value)), true)
  }

  // ----- skills (_old/script.js:31-50) -----

  /** `v && v.length > 0`. */
  predicate NonEmpty(v: Value) {
    Truthy(v) && Positive(Member(v, "length"))
  }

  /** The `<li>` texts of a list of values. */
  function Texts(items: seq<Value>): (r: seq<string>)
    ensures |r| == |items|
    ensures forall i | 0 <= i < |items| :: r[i] == TextContentOf(items[i])
  {
    seq(|items|, i requires 0 <= i < |items| => TextContentOf(items[i]))
  }

  function DomainTitle(domain: Value): Node {
    Para(DomainTitleClasses, TextContentOf(Member(domain, "title")))
  }

  /** Whether a domain renders without throwing: it is an object whose `items` is an array. */
  predicate DomainRenders(domain: Value) {
    !Nullish(domain) && Member(domain, "items").Arr?
  }

  /**
    What one domain appends before it finishes or throws: nothing for a null
    domain, only its title when `items` is not an array, otherwise its title
    and the list of its items.
  */
  function DomainChildren(domain: Value): seq<Node> {
    if Nullish(domain) then []
    else
      var items := Member(domain, "items");
      if !items.Arr? then [DomainTitle(domain)]
      else [DomainTitle(domain), Bullets(SkillBulletClasses, Texts(items.items))]
  }

  /**
    The `forEach` over the skill domains: each domain appends its children,
    and the first domain that throws ends the loop.
  */
  function DomainNodes(domains: seq<Value>): (r: Partial)
    ensures r.completed <==> forall i | 0 <= i < |domains| :: DomainRenders(domains[i])
    decreases |domains|
  {
    if |domains| == 0 then Partial([], true)
    else
      var n := |domains| - 1;
      var prefix := DomainNodes(domains[..n]);
      assert forall i | 0 <= i < n :: domains[..n][i] == domains[i];
      if !prefix.completed then prefix
      else Partial(prefix.done + DomainChildren(domains[n]), DomainRenders(domains[n]))
  }

  /**
    A loop over domains that all render appends exactly two children per
    domain, in order: the domain's title, then the list of its items.
  */
  lemma {:induction false} DomainNodesLayout(domains: seq<Value>)
    requires DomainNodes(domains).completed
    ensures |DomainNodes(domains).done| == 2 * |domains|
    ensures forall i | 0 <= i < |domains| ::
              DomainNodes(domains).done[2 * i] == DomainTitle(domains[i])
              && DomainNodes(domains).done[2 * i + 1] == Bullets(SkillBulletClasses, Texts(Member(domains[i], "items").items))
    decreases |domains|
  {
    if |domains| > 0 {
      var n := |domains| - 1;
      assert domains[..n + 1] == domains;
      DomainNodesStep(domains, n);
      DomainNodesLayout(domains[..n]);
      var prefix, done := DomainNodes(domains[..n]).done, DomainNodes(domains).done;
      forall i | 0 <= i < n
        ensures done[2 * i] == DomainTitle(domains[i])
        ensures done[2 * i + 1] == Bullets(SkillBulletClasses, Texts(Member(domains[i], "items").items))
      {
        assert domains[..n][i] == domains[i];
        assert done[2 * i] == prefix[2 * i] && done[2 * i + 1] == prefix[2 * i + 1];
      }
    }
  }

  /**
    The skills section: nothing happens unless `domains` is non-empty; then
    the domains' children are appended after whatever the list held.
  */
  function SkillsStep(s: Sheet, skills: Value): (r: Outcome)
    ensures !NonEmpty(Member(skills, "domains")) ==> r == Outcome(s, true)
    ensures NonEmpty(Member(skills, "domains")) && (!Member(skills, "domains").Arr? || s.skills.None?) ==> r == Outcome(s, false)
    ensures NonEmpty(Member(skills, "domains")) && Member(skills, "domains").Arr? && s.skills.Some? ==>
              var part := DomainNodes(Member(skills, "domains").items);
              r == Outcome(s.(skills := Some(s.skills.value + part.done)), part.completed)
  {
    var domains := Member(skills, "domains");
    if !NonEmpty(domains) then Outcome(s, true)
    else if !domains.Arr? || s.skills.None? then Outcome(s, false)
    else
      var part := DomainNodes(domains.items);
      Outcome(s.(skills := Some(s.skills.value + part.done)), part.completed)
  }

  /** Rendering the skills twice appends every domain's title and list twice. */
  lemma SkillsAppendTwice(s: Sheet, skills: Value)
    requires s.skills.Some? && Member(skills, "domains").Arr? && NonEmpty(Member(skills, "domains"))
    requires DomainNodes(Member(skills, "domains").items).completed
    ensures var part := DomainNodes(Member(skills, "domains").items).done;
            SkillsStep(SkillsStep(s, skills).sheet, skills).sheet.skills == Some(s.skills.value + part + part)
    ensures |SkillsStep(SkillsStep(s, skills).sheet, skills).sheet.skills.value|
         == |s.skills.value| + 4 * |Member(skills, "domains").items|
  {
    var part := DomainNodes(Member(skills, "domains").items).done;
    DomainNodesLayout(Member(skills, "domains").items);
    assert s.skills.value + part + part == (s.skills.value + part) + part;
  }

  // ----- education, languages, experience (_old/script.js:64-140) -----

  datatype ListKind = EducationList | LanguagesList | ExperienceList

  function ListOf(s: Sheet, kind: ListKind): Option<seq<Node>> {
    match kind
    case EducationList => s.education
    case LanguagesList => s.languages
    case ExperienceList => s.experience
  }

  function WithList(s: Sheet, kind: ListKind, children: Option<seq<Node>>): (r: Sheet)
    ensures ListOf(r, kind) == children
    ensures forall other | other != kind :: ListOf(r, other) == ListOf(s, other)
    ensures r.name == s.name && r.role == s.role && r.skills == s.skills
  {
    match kind
    case EducationList => s.(education := children)
    case LanguagesList => s.(languages := children)
    case ExperienceList => s.(experience := children)
  }

  /** `${edu.degree[lang]} - ${edu.institution} (${edu.year})`. */
  function EducationLine(edu: Value, lang: Lang): (r: Completion<Node>)
    ensures r.Thrown? <==> Nullish(edu) || Nullish(Member(edu, "degree"))
    ensures r.Normal? ==> r.value == Line(ToStr(Member(Member(edu, "degree"), Code(lang))) + " - "
                                          + ToStr(Member(edu, "institution")) + " (" + ToStr(Member(edu, "year")) + ")")
  {
    match Get(edu, "degree")
    case Thrown => Thrown
    case Normal(degree) =>
      match Get(degree, Code(lang))
      case Thrown => Thrown
      case Normal(title) =>
        Normal(Line(ToStr(title) + " - " + ToStr(Member(edu, "institution")) + " (" + ToStr(Member(edu, "year")) + ")"))
  }

  /** `${l.language} - ${l.level[lang]}`. */
  function LanguageLine(entry: Value, lang: Lang): (r: Completion<Node>)
    ensures r.Thrown? <==> Nullish(entry) || Nullish(Member(entry, "level"))
    ensures r.Normal? ==> r.value == Line(ToStr(Member(entry, "language")) + " - " + ToStr(Member(Member(entry, "level"), Code(lang))))
  {
    match Get(entry, "language")
    case Thrown => Thrown
    case Normal(language) =>
      match Get(entry, "level")
      case Thrown => Thrown
      case Normal(level) =>
        match Get(level, Code(lang))
        case Thrown => Thrown
        case Normal(levelText) => Normal(Line(ToStr(language) + " - " + ToStr(levelText)))
  }

  /** `${exp.role && exp.role[lang] ? ... : ''}`: the role line, present only when the role has a truthy entry. */
  function RoleLine(role: Value, lang: Lang): (r: string)
    ensures r == "" <==> !(Truthy(role) && Truthy(Member(role, Code(lang))))
    ensures r != "" ==> Contains(r, ToStr(Member(role, Code(lang))))
  {
    if Truthy(role) && Truthy(Member(role, Code(lang))) then
      ContainsInfix(RoleOpen, ToStr(Member(role, Code(lang))), ParagraphClose);
      RoleOpen + ToStr(Member(role, Code(lang))) + ParagraphClose
    else ""
  }

  /** A context or project line, present only for a truthy value. */
  function OptionalLine(open: string, v: Value): (r: string)
    ensures r == "" <==> !Truthy(v)
    ensures r != "" ==> Contains(r, ToStr(v))
  {
    if Truthy(v) then
      ContainsInfix(open, ToStr(v), ParagraphClose);
      open + ToStr(v) + ParagraphClose
    else ""
  }

  /** `<h3>${exp.company} (${exp.duration})</h3>`. */
  function EntryHeading(exp: Value): string {
    EntryHeadingOpen + ToStr(Member(exp, "company")) + DurationSuffix(exp)
  }

  function DurationSuffix(exp: Value): string {
    " (" + ToStr(Member(exp, "duration")) + ")" + EntryHeadingClose
  }

  /** The role, context and project lines, each of which may be empty. */
  function EntryLines(exp: Value, lang: Lang): string {
    RoleLine(Member(exp, "role"), lang) + OptionalLine(ContextOpen, Member(exp, "context"))
    + OptionalLine(ProjectOpen, Member(exp, "project"))
  }

  /** The entry's innerHTML. */
  function EntryMarkup(exp: Value, lang: Lang): string {
    EntryHeading(exp) + EntryLines(exp, lang)
  }

  /** The entry's markup names the company, whatever lines follow the heading. */
  lemma EntryNamesCompany(exp: Value, lang: Lang)
    ensures Contains(EntryMarkup(exp, lang), ToStr(Member(exp, "company")))
  {
    ContainsInfix(EntryHeadingOpen, ToStr(Member(exp, "company")), DurationSuffix(exp));
    ContainsExtended(EntryHeading(exp), ToStr(Member(exp, "company")), EntryLines(exp, lang));
  }

  /** The entry's markup shows the duration, and the role, context and project lines when they are present. */
  lemma EntryMarkupShows(exp: Value, lang: Lang)
    ensures Contains(EntryMarkup(exp, lang), ToStr(Member(exp, "duration")))
    ensures var role := Member(exp, "role");
            Truthy(role) && Truthy(Member(role, Code(lang))) ==> Contains(EntryMarkup(exp, lang), ToStr(Member(role, Code(lang))))
    ensures Truthy(Member(exp, "context")) ==> Contains(EntryMarkup(exp, lang), ToStr(Member(exp, "context")))
    ensures Truthy(Member(exp, "project")) ==> Contains(EntryMarkup(exp, lang), ToStr(Member(exp, "project")))
  {
    var duration := ToStr(Member(exp, "duration"));
    ContainsInfix(" (", duration, ")");
    ContainsExtended(" (" + duration + ")", duration, EntryHeadingClose);
    ContainsPrefixed(EntryHeadingOpen + ToStr(Member(exp, "company")), DurationSuffix(exp), duration);
    ContainsExtended(EntryHeading(exp), duration, EntryLines(exp, lang));
    var role, context, project := Member(exp, "role"), Member(exp, "context"), Member(exp, "project");
    var roleLine, contextLine, projectLine := RoleLine(role, lang), OptionalLine(ContextOpen, context), OptionalLine(ProjectOpen, project);
    if Truthy(role) && Truthy(Member(role, Code(lang))) {
      var t := ToStr(Member(role, Code(lang)));
      ContainsExtended(roleLine, t, contextLine);
      ContainsExtended(roleLine + contextLine, t, projectLine);
      ContainsPrefixed(EntryHeading(exp), EntryLines(exp, lang), t);
    }
    if Truthy(context) {
      ContainsPrefixed(roleLine, contextLine, ToStr(context));
      ContainsExtended(roleLine + contextLine, ToStr(context), projectLine);
      ContainsPrefixed(EntryHeading(exp), EntryLines(exp, lang), ToStr(context));
    }
    if Truthy(project) {
      ContainsPrefixed(roleLine + contextLine, projectLine, ToStr(project));
      ContainsPrefixed(EntryHeading(exp), EntryLines(exp, lang), ToStr(project));
    }
  }

  /** A list the entry renders when non-empty, which throws when it is non-empty but no array. */
  predicate ListThrows(v: Value) {
    NonEmpty(v) && !v.Arr?
  }

  function ResponsibilityNodes(responsibilities: Value): seq<Node> {
    if NonEmpty(responsibilities) && responsibilities.Arr? then [Rule, Bullets(ResponsibilityClasses, Texts(responsibilities.items))]
    else []
  }

  function ResultNodes(results: Value): seq<Node> {
    if NonEmpty(results) && results.Arr? then [Para(ResultsTitleClasses, ResultsHeading), Bullets(ResultClasses, Texts(results.items))]
    else []
  }

  function TechNodes(techStack: Value): seq<Node> {
    if NonEmpty(techStack) && techStack.Arr? then [Para(TechClasses, TechPrefix + ArrayJoin(techStack.items, ", "))]
    else []
  }

  /**
    One experience entry: the heading markup, then the separator and
    responsibilities, the results title and results, and the tech-stack line,
    each only when its list is non-empty.
  */
  function ExperienceEntry(exp: Value, lang: Lang): (r: Completion<Node>)
    ensures r.Thrown? <==> Nullish(exp) || ListThrows(Member(exp, "responsibilities"))
                           || ListThrows(Member(exp, "results")) || ListThrows(Member(exp, "techStack"))
    ensures r.Normal? ==> r.value.Entry? && r.value.markup == EntryMarkup(exp, lang)
  {
    if Nullish(exp) then Thrown
    else
      var responsibilities := Member(exp, "responsibilities");
      var results := Member(exp, "results");
      var techStack := Member(exp, "techStack");
      if ListThrows(responsibilities) || ListThrows(results) || ListThrows(techStack) then Thrown
      else
        Normal(Entry(EntryMarkup(exp, lang), ResponsibilityNodes(responsibilities) + ResultNodes(results) + TechNodes(techStack)))
  }

  /**
    The children of a rendered entry, in order: the separator and the
    responsibilities when there are any, then the results title and the
    results when there are any, then the tech-stack line when there is one.
  */
  lemma ExperienceEntryChildren(exp: Value, lang: Lang)
    requires ExperienceEntry(exp, lang).Normal?
    ensures var responsibilities, results, techStack := Member(exp, "responsibilities"), Member(exp, "results"), Member(exp, "techStack");
            ExperienceEntry(exp, lang).value.children
            == (if NonEmpty(responsibilities) then [Rule, Bullets(ResponsibilityClasses, Texts(responsibilities.items))] else [])
               + (if NonEmpty(results) then [Para(ResultsTitleClasses, ResultsHeading), Bullets(ResultClasses, Texts(results.items))] else [])
               + (if NonEmpty(techStack) then [Para(TechClasses, TechPrefix + ArrayJoin(techStack.items, ", "))] else [])
  {
  }

  /**
    Which sections a rendered entry has: the separator exactly when there are
    responsibilities, the results title exactly when there are results, and a
    tech-stack line, naming the whole stack, exactly when the stack is non-empty.
  */
  lemma ExperienceEntrySections(exp: Value, lang: Lang)
    requires ExperienceEntry(exp, lang).Normal?
    ensures var children := ExperienceEntry(exp, lang).value.children;
            && (Rule in children <==> NonEmpty(Member(exp, "responsibilities")))
            && (Para(ResultsTitleClasses, ResultsHeading) in children <==> NonEmpty(Member(exp, "results")))
            && (NonEmpty(Member(exp, "techStack")) <==> exists c :: c in children && c.Para? && c.classes == TechClasses)
            && (NonEmpty(Member(exp, "techStack")) ==>
                  Para(TechClasses, TechPrefix + ArrayJoin(Member(exp, "techStack").items, ", ")) in children)
  {
    ExperienceEntryChildren(exp, lang);
    var techStack := Member(exp, "techStack");
    var children := ExperienceEntry(exp, lang).value.children;
    if NonEmpty(techStack) {
      assert children[|children| - 1] == Para(TechClasses, TechPrefix + ArrayJoin(techStack.items, ", "));
    }
  }

  /** The child one item of a list renders as. */
  function ItemNode(kind: ListKind, item: Value, lang: Lang): Completion<Node> {
    match kind
    case EducationList => EducationLine(item, lang)
    case LanguagesList => LanguageLine(item, lang)
    case ExperienceList => ExperienceEntry(item, lang)
  }

  /** What each item of a list renders as. */
  function Rendered(kind: ListKind, items: seq<Value>, lang: Lang): (r: seq<Completion<Node>>)
    ensures |r| == |items|
    ensures forall i | 0 <= i < |items| :: r[i] == ItemNode(kind, items[i], lang)
  {
    seq(|items|, i requires 0 <= i < |items| => ItemNode(kind, items[i], lang))
  }

  /** What a callback makes of each item, in input order. */
  function MapRender(render: Value -> Completion<Node>, items: seq<Value>): (r: seq<Completion<Node>>)
    ensures |r| == |items|
    ensures forall i | 0 <= i < |items| :: r[i] == render(items[i])
  {
    seq(|items|, i requires 0 <= i < |items| => render(items[i]))
  }

  /** The list callback of the page is `ItemNode` for the list's kind. */
  lemma RenderedIsMap(kind: ListKind, items: seq<Value>, lang: Lang)
    ensures MapRender(item => ItemNode(kind, item, lang), items) == Rendered(kind, items, lang)
  {
  }

  /**
    The `forEach` that appends one child per item: the children of the items
    before the first one that throws, in input order.
  */
  function UntilThrow(rendered: seq<Completion<Node>>): (r: Partial)
    ensures r.completed <==> forall i | 0 <= i < |rendered| :: rendered[i].Normal?
    ensures |r.done| <= |rendered|
    ensures r.completed ==> |r.done| == |rendered|
    ensures !r.completed ==> |r.done| < |rendered| && rendered[|r.done|].Thrown?
    ensures forall i | 0 <= i < |r.done| :: rendered[i].Normal? && r.done[i] == rendered[i].value
    decreases |rendered|
  {
    if |rendered| == 0 then Partial([], true)
    else
      var n := |rendered| - 1;
      var prefix := UntilThrow(rendered[..n]);
      assert forall i | 0 <= i < n :: rendered[..n][i] == rendered[i];
      if !prefix.completed then prefix
      else
        match rendered[n]
        case Thrown => Partial(prefix.done, false)
        case Normal(node) => Partial(prefix.done + [node], true)
  }

  /** The children a list receives from an array document. */
  function ItemNodes(kind: ListKind, items: seq<Value>, lang: Lang): Partial {
    UntilThrow(Rendered(kind, items, lang))
  }

  /**
    A cleared list: when the element exists it is emptied, then receives the
    children of the items; a document that is no array throws right after
    the clearing.
  */
  function ListStep(s: Sheet, kind: ListKind, doc: Value, lang: Lang): (r: Outcome)
    ensures ListOf(s, kind).None? ==> r == Outcome(s, true)
    ensures ListOf(s, kind).Some? && !doc.Arr? ==> r == Outcome(WithList(s, kind, Some([])), false)
    ensures ListOf(s, kind).Some? && doc.Arr? ==>
              var part := ItemNodes(kind, doc.items, lang);
              r == Outcome(WithList(s, kind, Some(part.done)), part.completed)
  {
    if ListOf(s, kind).None? then Outcome(s, true)
    else if !doc.Arr? then Outcome(WithList(s, kind, Some([])), false)
    else
      var part := ItemNodes(kind, doc.items, lang);
      Outcome(WithList(s, kind, Some(part.done)), part.completed)
  }

  /** When every item renders, the list holds exactly one child per item, in input order. */
  lemma ListHoldsOnePerItem(s: Sheet, kind: ListKind, items: seq<Value>, lang: Lang)
    requires ListOf(s, kind).Some?
    requires forall i | 0 <= i < |items| :: ItemNode(kind, items[i], lang).Normal?
    ensures ListStep(s, kind, Arr(items), lang).completed
    ensures ListOf(ListStep(s, kind, Arr(items), lang).sheet, kind)
         == Some(seq(|items|, i requires 0 <= i < |items| => ItemNode(kind, items[i], lang).value))
  {
    var part := ItemNodes(kind, items, lang);
    assert part.done == seq(|items|, i requires 0 <= i < |items| => ItemNode(kind, items[i], lang).value);
  }

  lemma WithListTwice(s: Sheet, kind: ListKind, first: Option<seq<Node>>, second: Option<seq<Node>>)
    ensures WithList(WithList(s, kind, first), kind, second) == WithList(s, kind, second)
  {
  }

  /** Unlike the skills list, a cleared list renders the same however often it is rendered. */
  lemma ListStepIdempotent(s: Sheet, kind: ListKind, doc: Value, lang: Lang)
    ensures ListStep(ListStep(s, kind, doc, lang).sheet, kind, doc, lang).sheet == ListStep(s, kind, doc, lang).sheet
  {
    var once := ListStep(s, kind, doc, lang).sheet;
    if ListOf(s, kind).Some? {
      var children := if doc.Arr? then Some(ItemNodes(kind, doc.items, lang).done) else Some([]);
      assert WithList(once, kind, children) == once by {
        match kind
        case EducationList =>
        case LanguagesList =>
        case ExperienceList =>
      }
    }
  }

  // ----- renderResume (_old/script.js:14-141) -----

  /**
    `renderResume()` on the five loaded documents: nothing at all unless all
    five are truthy; then header, skills, education, languages and
    experience, stopping at the first throw.
  */
  function ResumeAfter(s: Sheet, personal: Value, skills: Value, education: Value, languages: Value,
                       experience: Value, lang: Lang): (r: Outcome)
    ensures !(Truthy(personal) && Truthy(skills) && Truthy(education) && Truthy(languages) && Truthy(experience)) ==>
              r == Outcome(s, true)
  {
    if !(Truthy(personal) && Truthy(skills) && Truthy(education) && Truthy(languages) && Truthy(experience)) then
      Outcome(s, true)
    else
      var header := HeaderStep(s, personal, lang);
      if !header.completed then header
      else
        var skilled := SkillsStep(header.sheet, skills);
        if !skilled.completed then skilled
        else
          var educated := ListStep(skilled.sheet, EducationList, education, lang);
          if !educated.completed then educated
          else
            var spoken := ListStep(educated.sheet, LanguagesList, languages, lang);
            if !spoken.completed then spoken
            else ListStep(spoken.sheet, ExperienceList, experience, lang)
  }

  /** A file that failed to load leaves the whole page as it was. */
  lemma FailedFileRendersNothing(s: Sheet, files: seq<Fetched<Value>>, lang: Lang)
    requires |files| == 5
    requires exists i | 0 <= i < 5 :: files[i].Failed?
    ensures ResumeAfter(s, LoadJson(files[0]), LoadJson(files[1]), LoadJson(files[2]), LoadJson(files[3]),
                        LoadJson(files[4]), lang) == Outcome(s, true)
  {
    var i :| 0 <= i < 5 && files[i].Failed?;
    assert LoadJson(files[i]) == Null;
  }

  /** The page elements the legacy renderer writes, changed in place. */
  class ResumePage {
    var name: Option<string>
    var role: Option<string>
    var skillsList: Option<seq<Node>>
    var educationList: Option<seq<Node>>
    var languagesList: Option<seq<Node>>
    var experienceList: Option<seq<Node>>

    function State(): Sheet
      reads this
    {
      Sheet(name, role, skillsList, educationList, languagesList, experienceList)
    }

    constructor(initial: Sheet)
      ensures State() == initial
    {
      name := initial.name;
      role := initial.role;
      skillsList := initial.skills;
      educationList := initial.education;
      languagesList := initial.languages;
      experienceList := initial.experience;
    }

    method SetList(kind: ListKind, children: Option<seq<Node>>)
      modifies this
      ensures State() == WithList(old(State()), kind, children)
    {
      match kind
      case EducationList => educationList := children;
      case LanguagesList => languagesList := children;
      case ExperienceList => experienceList := children;
    }

    /** `document.getElementById('name' | 'role').textContent = ...`. */
    method RenderHeader(personal: Value) returns (ok: bool)
      modifies this
      ensures State() == HeaderStep(old(State()), personal, ResumeLang).sheet
      ensures ok == HeaderStep(old(State()), personal, ResumeLang).completed
    {
      var nameText := HeaderText(personal, "name", ResumeLang);
      if nameText.Thrown? || name.None? {
        return false;
      }
      name := Some(nameText.value);
      var roleText := HeaderText(personal, "role", ResumeLang);
      if roleText.Thrown? || role.None? {
        return false;
      }
      role := Some(roleText.value);
      return true;
    }

    /** The `<ul>` of one domain: one `<li>` per item. */
    static method SkillBullets(items: seq<Value>) returns (node: Node)
      ensures node == Bullets(SkillBulletClasses, Texts(items))
    {
      var lis: seq<string> := [];
      var j := 0;
      while j < |items|
        invariant 0 <= j <= |items|
        invariant lis == Texts(items[..j])
      {
        lis := lis + [TextContentOf(items[j])];
        j := j + 1;
      }
      assert items[..j] == items;
      return Bullets(SkillBulletClasses, lis);
    }

    /** The skills section: appends to the list without clearing it. */
    method RenderSkills(skills: Value) returns (ok: bool)
      modifies this
      ensures State() == SkillsStep(old(State()), skills).sheet
      ensures ok == SkillsStep(old(State()), skills).completed
    {
      var domains := Member(skills, "domains");
      if !NonEmpty(domains) {
        return true;
      }
      if !domains.Arr? || skillsList.None? {
        return false;
      }
      ok := AppendDomains(domains.items);
    }

    /** `skills.domains.forEach(...)`: the domains' children, appended until one throws. */
    method AppendDomains(all: seq<Value>) returns (ok: bool)
      requires skillsList.Some?
      modifies this
      ensures State() == old(State()).(skills := Some(old(skillsList.value) + DomainNodes(all).done))
      ensures ok == DomainNodes(all).completed
    {
      ghost var s0 := State();
      var i := 0;
      assert all[..0] == [];
      assert s0.skills.value + [] == s0.skills.value;
      while i < |all|
        invariant 0 <= i <= |all|
        invariant DomainNodes(all[..i]).completed
        invariant State() == s0.(skills := Some(s0.skills.value + DomainNodes(all[..i]).done))
      {
        ghost var before := DomainNodes(all[..i]).done;
        DomainNodesStep(all, i);
        ok := AppendDomain(all[i]);
        assert s0.skills.value + before + DomainChildren(all[i]) == s0.skills.value + (before + DomainChildren(all[i]));
        if !ok {
          DomainAbortStays(all, i + 1);
          return;
        }
        i := i + 1;
      }
      assert all[..i] == all;
      return true;
    }

    /** The `forEach` callback for one skill domain: its title, then the list of its items. */
    method AppendDomain(domain: Value) returns (ok: bool)
      requires skillsList.Some?
      modifies this
      ensures ok == DomainRenders(domain)
      ensures State() == old(State()).(skills := Some(old(skillsList.value) + DomainChildren(domain)))
    {
      if Nullish(domain) {
        assert skillsList.value + [] == skillsList.value;
        return false;
      }
      skillsList := Some(skillsList.value + [DomainTitle(domain)]);
      var items := Member(domain, "items");
      if !items.Arr? {
        return false;
      }
      var bullets := SkillBullets(items.items);
      skillsList := Some(skillsList.value + [bullets]);
      assert skillsList.value == old(skillsList.value) + [DomainTitle(domain), bullets];
      return true;
    }

    /** `list.innerHTML = ''` followed by a `forEach` that appends one child per item. */
    method RenderList(kind: ListKind, doc: Value) returns (ok: bool)
      modifies this
      ensures State() == ListStep(old(State()), kind, doc, ResumeLang).sheet
      ensures ok == ListStep(old(State()), kind, doc, ResumeLang).completed
    {
      ghost var s0 := State();
      var current := match kind
        case EducationList => educationList
        case LanguagesList => languagesList
        case ExperienceList => experienceList;
      if current.None? {
        return true;
      }
      SetList(kind, Some([]));
      if !doc.Arr? {
        return false;
      }
      ok := AppendEach(kind, doc.items, item => ItemNode(kind, item, ResumeLang));
      RenderedIsMap(kind, doc.items, ResumeLang);
    }

    /**
      `items.forEach(callback)` where the callback builds one child and appends
      it: the children of the items before the first one whose callback throws.
    */
    method AppendEach(kind: ListKind, items: seq<Value>, render: Value -> Completion<Node>) returns (ok: bool)
      requires ListOf(State(), kind) == Some([])
      modifies this
      ensures State() == WithList(old(State()), kind, Some(UntilThrow(MapRender(render, items)).done))
      ensures ok == UntilThrow(MapRender(render, items)).completed
    {
      ghost var s0 := State();
      ghost var rendered := MapRender(render, items);
      var children: seq<Node> := [];
      var i := 0;
      assert s0 == WithList(s0, kind, Some([]));
      while i < |items|
        invariant 0 <= i <= |items|
        invariant UntilThrow(rendered[..i]) == Partial(children, true)
        invariant State() == WithList(s0, kind, Some(children))
      {
        UntilThrowStep(rendered, i);
        var node := render(items[i]);
        if node.Thrown? {
          UntilThrowAbortStays(rendered, i + 1);
          return false;
        }
        children := children + [node.value];
        SetList(kind, Some(children));
        WithListTwice(s0, kind, Some(children[..i]), Some(children));
        i := i + 1;
      }
      assert rendered[..i] == rendered;
      return true;
    }

    /** `renderResume()`, given the outcome of fetching each of the five documents. */
    method RenderResume(personalFile: Fetched<Value>, skillsFile: Fetched<Value>, educationFile: Fetched<Value>,
                        languagesFile: Fetched<Value>, experienceFile: Fetched<Value>) returns (ok: bool)
      modifies this
      ensures var r := ResumeAfter(old(State()), LoadJson(personalFile), LoadJson(skillsFile), LoadJson(educationFile),
                                   LoadJson(languagesFile), LoadJson(experienceFile), ResumeLang);
              State() == r.sheet && ok == r.completed
    {
      var personal := LoadJson(personalFile);
      var skills := LoadJson(skillsFile);
      var education := LoadJson(educationFile);
      var languages := LoadJson(languagesFile);
      var experience := LoadJson(experienceFile);
      if !(Truthy(personal) && Truthy(skills) && Truthy(education) && Truthy(languages) && Truthy(experience)) {
        return true;
      }
      ok := RenderHeader(personal);
      if !ok { return; }
      ok := RenderSkills(skills);
      if !ok { return; }
      ok := RenderList(EducationList, education);
      if !ok { return; }
      ok := RenderList(LanguagesList, languages);
      if !ok { return; }
      ok := RenderList(ExperienceList, experience);
    }
  }

  /** A domain loop that has thrown stays thrown: later domains append nothing. */
  /** One more domain extends a completed prefix by that domain's children. */
  lemma DomainNodesStep(all: seq<Value>, i: nat)
    requires i < |all|
    requires DomainNodes(all[..i]).completed
    ensures DomainNodes(all[..i + 1]) == Partial(DomainNodes(all[..i]).done + DomainChildren(all[i]), DomainRenders(all[i]))
  {
    assert all[..i + 1][..i] == all[..i];
  }

  lemma {:induction false} DomainAbortStays(domains: seq<Value>, n: nat)
    requires n <= |domains|
    requires !DomainNodes(domains[..n]).completed
    ensures DomainNodes(domains) == DomainNodes(domains[..n])
    decreases |domains| - n
  {
    if n < |domains| {
      var init := domains[..|domains| - 1];
      assert init[..n] == domains[..n];
      DomainAbortStays(init, n);
    } else {
      assert domains[..n] == domains;
    }
  }

  /** An item loop that has thrown stays thrown: later items append nothing. */
  /** One more item extends a completed prefix by its child, or ends it when the item throws. */
  lemma UntilThrowStep(rendered: seq<Completion<Node>>, i: nat)
    requires i < |rendered|
    requires UntilThrow(rendered[..i]).completed
    ensures UntilThrow(rendered[..i + 1])
         == if rendered[i].Normal? then Partial(UntilThrow(rendered[..i]).done + [rendered[i].value], true)
            else Partial(UntilThrow(rendered[..i]).done, false)
  {
    assert rendered[..i + 1][..i] == rendered[..i];
  }

  lemma {:induction false} UntilThrowAbortStays(rendered: seq<Completion<Node>>, n: nat)
    requires n <= |rendered|
    requires !UntilThrow(rendered[..n]).completed
    ensures UntilThrow(rendered) == UntilThrow(rendered[..n])
    decreases |rendered| - n
  {
    if n < |rendered| {
      var init := rendered[..|rendered| - 1];
      assert init[..n] == rendered[..n];
      UntilThrowAbortStays(init, n);
    } else {
      assert rendered[..n] == rendered;
    }
  }
}
