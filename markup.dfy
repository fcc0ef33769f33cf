/**
  The markup builders of `PortfolioApp` (js/script.js): pure functions from a
  content-document value and the current language to an HTML string. A
  builder that dereferences a field of `null`/`undefined`, or calls an array
  method on something that is not an array, throws a TypeError; those builders
  return a `Completion`. Field text is spliced into the markup as it is: no
  escaping happens anywhere. The layout whitespace inside the source's
  template literals is not reproduced; the tags and attributes are. The fixed
  parts of each template are named constants.
*/
module Markup {
  import opened Json
  import opened Localization

  // ----- experience cards (js/script.js:374-441) -----

  /** The opening tag shared by experience cards and education items. */
  const CardOpen: string :=
    "<div class=\"p-6 bg-gray-900/60 rounded-2xl shadow-lg "
    + "hover:shadow-xl transition-all duration-300 border "
    + "border-gray-800/40 backdrop-blur-sm hover:border-indigo-600/30\" "
    + "data-aos=\"fade-up\">"
  const DivClose: string := "</div>"

  const SubHeadingOpen: string := "<h4 class=\"text-lg font-semibold text-gray-100 mb-3\">"
  const SubHeadingClose: string := "</h4>"

  /** The `<h4>` heading above a list section or the tech stack. */
  function SubHeading(text: string): string {
    SubHeadingOpen + text + SubHeadingClose
  }

  const TypeSpanOpen: string := "<span class=\"text-sm text-gray-400 italic\">"
  const SpanClose: string := "</span>"

  /** The italic contract-type span of an experience header, present only for a truthy type. */
  function TypeSpan(kind: Value): (r: string)
    ensures r == "" <==> !Truthy(kind)
    ensures Truthy(kind) ==> Contains(r, ToStr(kind))
  {
    if Truthy(kind) then
      ContainsInfix(TypeSpanOpen, ToStr(kind), SpanClose);
      TypeSpanOpen + ToStr(kind) + SpanClose
    else ""
  }

  const ContextOpen: string := "<p class=\"text-gray-300 mb-4\">"
  const ParagraphClose: string := "</p>"

  /** The context paragraph of an experience card, present only for a truthy context. */
  function ContextParagraph(context: Value): (r: string)
    ensures r == "" <==> !Truthy(context)
    ensures Truthy(context) ==> Contains(r, ToStr(context))
  {
    if Truthy(context) then
      ContainsInfix(ContextOpen, ToStr(context), ParagraphClose);
      ContextOpen + ToStr(context) + ParagraphClose
    else ""
  }

  const HeaderOpen: string :=
    "<div class=\"flex flex-col md:flex-row md:justify-between "
    + "md:items-start mb-4\"><div><h3 class=\"text-xl font-bold "
    + "text-gray-100\">"
  const HeaderRole: string := "</h3><p class=\"text-indigo-400 font-medium\">"
  const HeaderDuration: string :=
    "</div><span class=\"text-gray-400 mt-2 md:mt-0 bg-gray-800/50 "
    + "px-3 py-1 rounded-lg\">"
  const SpanDivClose: string := "</span></div>"

  /**
    `createExperienceHeader(company, role, type, duration)`, on arguments that
    are already localized: the company, the role, the type span and the
    duration, in that order.
  */
  function CreateExperienceHeader(company: Value, role: Value, kind: Value, duration: Value): (r: string)
    ensures Contains(r, ToStr(company))
    ensures Contains(r, ToStr(role))
    ensures Contains(r, TypeSpan(kind))
    ensures Contains(r, ToStr(duration))
  {
    var pre := HeaderOpen + ToStr(company) + HeaderRole + ToStr(role) + ParagraphClose;
    ContainsInfix(HeaderOpen + ToStr(company) + HeaderRole, ToStr(role), ParagraphClose);
    ContainsExtended(pre, ToStr(role), TypeSpan(kind));
    ContainsExtended(pre + TypeSpan(kind), ToStr(role), HeaderDuration);
    ContainsExtended(pre + TypeSpan(kind) + HeaderDuration, ToStr(role), ToStr(duration));
    ContainsExtended(pre + TypeSpan(kind) + HeaderDuration + ToStr(duration), ToStr(role), SpanDivClose);
    ContainsInfix(HeaderOpen, ToStr(company), HeaderRole);
    ContainsExtended(HeaderOpen + ToStr(company) + HeaderRole, ToStr(company), ToStr(role));
    ContainsExtended(HeaderOpen + ToStr(company) + HeaderRole + ToStr(role), ToStr(company), ParagraphClose);
    ContainsExtended(pre, ToStr(company), TypeSpan(kind));
    ContainsInfix(pre, TypeSpan(kind), HeaderDuration);
    ContainsExtended(pre + TypeSpan(kind), ToStr(company), HeaderDuration);
    ContainsExtended(pre + TypeSpan(kind) + HeaderDuration, TypeSpan(kind), ToStr(duration));
    ContainsExtended(pre + TypeSpan(kind) + HeaderDuration, ToStr(company), ToStr(duration));
    ContainsInfix(pre + TypeSpan(kind) + HeaderDuration, ToStr(duration), SpanDivClose);
    ContainsExtended(pre + TypeSpan(kind) + HeaderDuration + ToStr(duration), TypeSpan(kind), SpanDivClose);
    ContainsExtended(pre + TypeSpan(kind) + HeaderDuration + ToStr(duration), ToStr(company), SpanDivClose);
    pre + TypeSpan(kind) + HeaderDuration + ToStr(duration) + SpanDivClose
  }

  const ListItemOpen: string := "<li class=\"flex items-start text-gray-300\"><i class=\"fas fa-"
  const ListItemIcon: string := " mt-1 mr-2 text-xs\"></i><span>"
  const ListItemClose: string := "</span></li>"

  /** One `<li>` of a list section. */
  function ListItem(item: Value, icon: string, iconColor: string): (r: string)
    ensures Contains(r, ToStr(item))
  {
    ContainsInfix(ListItemOpen + icon + " text-" + iconColor + ListItemIcon, ToStr(item), ListItemClose);
    ListItemOpen + icon + " text-" + iconColor + ListItemIcon + ToStr(item) + ListItemClose
  }

  /** `items.map(item => <li>…</li>).join('')`. */
  function ListItems(items: seq<Value>, icon: string, iconColor: string): string {
    ConcatMap((item: Value) => ListItem(item, icon, iconColor), items)
  }

  const ListSectionOpen: string := "<div class=\"mb-4\">"
  const ListOpen: string := "<ul class=\"space-y-2\">"
  const ListClose: string := "</ul></div>"

  /**
    `createListSection(type, items, icon, iconColor)`: nothing unless `items`
    is a non-empty array; otherwise the translated heading and one `<li>` per
    item, in order.
  */
  function CreateListSection(kind: string, items: Value, icon: string, iconColor: string, lang: Lang): (r: string)
    ensures r == "" <==> !(items.Arr? && |items.items| > 0)
    ensures r != "" ==> Contains(r, SubHeading(TranslateText(kind, lang)))
    ensures r != "" ==> Contains(r, ListItems(items.items, icon, iconColor))
  {
    if !Truthy(items) || !items.Arr? || |items.items| == 0 then ""
    else
      var heading := SubHeading(TranslateText(kind, lang));
      var lis := ListItems(items.items, icon, iconColor);
      ContainsInfix(ListSectionOpen, heading, ListOpen);
      ContainsExtended(ListSectionOpen + heading + ListOpen, heading, lis);
      ContainsExtended(ListSectionOpen + heading + ListOpen + lis, heading, ListClose);
      ContainsInfix(ListSectionOpen + heading + ListOpen, lis, ListClose);
      ListSectionOpen + heading + ListOpen + lis + ListClose
  }

  const TechTagOpen: string :=
    "<span class=\"px-3 py-1 bg-indigo-900/30 text-indigo-300 "
    + "rounded-full text-sm border border-indigo-800/40\">"

  /** One technology tag. */
  function TechTag(tech: Value): (r: string)
    ensures Contains(r, ToStr(tech))
  {
    ContainsInfix(TechTagOpen, ToStr(tech), SpanClose);
    TechTagOpen + ToStr(tech) + SpanClose
  }

  function TechTags(stack: seq<Value>): string {
    ConcatMap(TechTag, stack)
  }

  const TechStackOpen: string := "<div>"
  const TagsOpen: string := "<div class=\"flex flex-wrap gap-2\">"
  const TwoDivsClose: string := "</div></div>"

  /**
    `createTechStack(techStack)`: nothing when `techStack.length` is falsy;
    otherwise the translated "technologies" heading and one tag per entry. A
    non-array with a truthy `length` has no `map` and throws.
  */
  function CreateTechStack(techStack: Value, lang: Lang): (r: Completion<string>)
    ensures r.Thrown? <==> Nullish(techStack) || (!techStack.Arr? && Truthy(Member(techStack, "length")))
    ensures r == Normal("") <==> !Nullish(techStack) && !Truthy(Member(techStack, "length"))
    ensures techStack.Arr? && |techStack.items| > 0 ==>
              r.Normal? && Contains(r.value, SubHeading(TranslateText("technologies", lang)))
                        && Contains(r.value, TechTags(techStack.items))
  {
    match Get(techStack, "length")
    case Thrown => Thrown
    case Normal(length) =>
      if !Truthy(length) then Normal("")
      else match Elements(techStack)
        case Thrown => Thrown
        case Normal(stack) =>
          var heading := SubHeading(TranslateText("technologies", lang));
          var tags := TechTags(stack);
          ContainsInfix(TechStackOpen, heading, TagsOpen);
          ContainsExtended(TechStackOpen + heading + TagsOpen, heading, tags);
          ContainsExtended(TechStackOpen + heading + TagsOpen + tags, heading, TwoDivsClose);
          ContainsInfix(TechStackOpen + heading + TagsOpen, tags, TwoDivsClose);
          Normal(TechStackOpen + heading + TagsOpen + tags + TwoDivsClose)
  }

  /**
    The sections of an experience card ahead of its tech stack, in order:
    the header, the context paragraph and the responsibilities and results
    lists, every field localized first.
  */
  function ExperienceSections(exp: Value, lang: Lang): (r: string)
    ensures Contains(r, ToStr(Localize(Member(exp, "company"), lang)))
    ensures Contains(r, ToStr(Localize(Member(exp, "role"), lang)))
    ensures Contains(r, ToStr(Localize(Member(exp, "duration"), lang)))
  {
    var company := Localize(Member(exp, "company"), lang);
    var role := Localize(Member(exp, "role"), lang);
    var duration := Localize(Member(exp, "duration"), lang);
    var header := CreateExperienceHeader(company, role, Localize(Member(exp, "type"), lang), duration);
    var rest := ContextParagraph(Localize(Member(exp, "context"), lang))
      + CreateListSection("responsibilities", Localize(Member(exp, "responsibilities"), lang), "chevron-right", "indigo-400", lang)
      + CreateListSection("results", Localize(Member(exp, "results"), lang), "check", "green-400", lang);
    ContainsStart(header, rest);
    ContainsTrans(header + rest, header, ToStr(company));
    ContainsTrans(header + rest, header, ToStr(role));
    ContainsTrans(header + rest, header, ToStr(duration));
    header + rest
  }

  /**
    `createExperienceCard(exp)`: the sections, then the tech stack built from
    `exp.techStack || []`. It throws exactly when `exp` is null/undefined or
    the stack is a non-array with a truthy `length`.
  */
  function CreateExperienceCard(exp: Value, lang: Lang): (r: Completion<string>)
    ensures r.Thrown? <==> Nullish(exp)
                           || (!Member(exp, "techStack").Arr? && Truthy(Member(Member(exp, "techStack"), "length")))
    ensures r.Normal? ==> CreateTechStack(Or(Member(exp, "techStack"), Arr([])), lang).Normal?
    ensures r.Normal? ==>
              Contains(r.value, ExperienceSections(exp, lang) + CreateTechStack(Or(Member(exp, "techStack"), Arr([])), lang).value)
  {
    if Nullish(exp) then Thrown
    else
      DefaultStackThrows(Member(exp, "techStack"), lang);
      match CreateTechStack(Or(Member(exp, "techStack"), Arr([])), lang)
      case Thrown => Thrown
      case Normal(tech) =>
        ContainsInfix(CardOpen, ExperienceSections(exp, lang) + tech, DivClose);
        Normal(CardOpen + (ExperienceSections(exp, lang) + tech) + DivClose)
  }

  /** `createTechStack(techStack || [])` throws exactly for a non-array with a truthy `length`. */
  lemma DefaultStackThrows(techStack: Value, lang: Lang)
    ensures CreateTechStack(Or(techStack, Arr([])), lang).Thrown? <==> !techStack.Arr? && Truthy(Member(techStack, "length"))
  {
  }

  /** A rendered experience card names the company, the role and the duration. */
  lemma ExperienceCardShows(exp: Value, lang: Lang)
    requires CreateExperienceCard(exp, lang).Normal?
    ensures Contains(CreateExperienceCard(exp, lang).value, ToStr(Localize(Member(exp, "company"), lang)))
    ensures Contains(CreateExperienceCard(exp, lang).value, ToStr(Localize(Member(exp, "role"), lang)))
    ensures Contains(CreateExperienceCard(exp, lang).value, ToStr(Localize(Member(exp, "duration"), lang)))
  {
    var card := CreateExperienceCard(exp, lang).value;
    var sections := ExperienceSections(exp, lang);
    var whole := sections + CreateTechStack(Or(Member(exp, "techStack"), Arr([])), lang).value;
    ContainsStart(sections, CreateTechStack(Or(Member(exp, "techStack"), Arr([])), lang).value);
    ContainsTrans(card, whole, sections);
    ContainsTrans(card, sections, ToStr(Localize(Member(exp, "company"), lang)));
    ContainsTrans(card, sections, ToStr(Localize(Member(exp, "role"), lang)));
    ContainsTrans(card, sections, ToStr(Localize(Member(exp, "duration"), lang)));
  }

  /**
    A rendered experience card holds, side by side and in this order, the
    header, the context paragraph, the responsibilities section, the results
    section and the tech stack.
  */
  lemma ExperienceCardInOrder(exp: Value, lang: Lang)
    requires CreateExperienceCard(exp, lang).Normal?
    ensures var company, role, duration := Localize(Member(exp, "company"), lang), Localize(Member(exp, "role"), lang),
                                           Localize(Member(exp, "duration"), lang);
            Contains(CreateExperienceCard(exp, lang).value,
                     CreateExperienceHeader(company, role, Localize(Member(exp, "type"), lang), duration)
                     + ContextParagraph(Localize(Member(exp, "context"), lang))
                     + CreateListSection("responsibilities", Localize(Member(exp, "responsibilities"), lang), "chevron-right", "indigo-400", lang)
                     + CreateListSection("results", Localize(Member(exp, "results"), lang), "check", "green-400", lang)
                     + CreateTechStack(Or(Member(exp, "techStack"), Arr([])), lang).value)
  {
    var company, role, duration := Localize(Member(exp, "company"), lang), Localize(Member(exp, "role"), lang),
                                   Localize(Member(exp, "duration"), lang);
    var header := CreateExperienceHeader(company, role, Localize(Member(exp, "type"), lang), duration);
    var context := ContextParagraph(Localize(Member(exp, "context"), lang));
    var responsibilities := CreateListSection("responsibilities", Localize(Member(exp, "responsibilities"), lang), "chevron-right", "indigo-400", lang);
    var results := CreateListSection("results", Localize(Member(exp, "results"), lang), "check", "green-400", lang);
    var tech := CreateTechStack(Or(Member(exp, "techStack"), Arr([])), lang).value;
    assert ExperienceSections(exp, lang) == header + (context + responsibilities + results);
    RegroupFive(header, context, responsibilities, results, tech);
  }

  lemma RegroupFive(a: string, b: string, c: string, d: string, e: string)
    ensures a + (b + c + d) + e == a + b + c + d + e
  {
  }

  // ----- hero and about (js/script.js:314-351, 469-518) -----

  const HeroParagraphOpen: string := "<p class=\"text-gray-300 md:text-lg mb-4 leading-relaxed\">"

  /** One hero description paragraph, as `renderHero` builds it. */
  function HeroParagraph(text: Value): (r: string)
    ensures Contains(r, ToStr(text))
  {
    ContainsInfix(HeroParagraphOpen, ToStr(text), ParagraphClose);
    HeroParagraphOpen + ToStr(text) + ParagraphClose
  }

  const HeroDescriptionOpen: string := "<p class=\"text-lg md:text-xl text-gray-400 mb-4 leading-relaxed\">"

  /** One description paragraph, as the unused `renderHeroDescription` builds it. */
  function HeroDescriptionParagraph(text: Value): (r: string)
    ensures Contains(r, ToStr(text))
  {
    ContainsInfix(HeroDescriptionOpen, ToStr(text), ParagraphClose);
    HeroDescriptionOpen + ToStr(text) + ParagraphClose
  }

  const StatOpen: string :=
    "<div class=\"flex items-center bg-gray-900/60 light:bg-white/80 "
    + "rounded-xl p-4 border border-gray-800/40 light:border-gray-300/40 "
    + "backdrop-blur-sm transition-all duration-300 hover:border-indigo-500/30 "
    + "shadow-lg light:shadow-sm\"><div class=\"bg-gradient-to-r "
    + "from-indigo-600 to-purple-600 p-3 rounded-full mr-3 "
    + "shadow-lg\"><i class=\"fas fa-"
  const StatValue: string :=
    " text-white\"></i></div><div><p class=\"font-semibold "
    + "text-gray-100 light:text-gray-900\">"
  const StatLabel: string := "</p><p class=\"text-sm text-gray-500 light:text-gray-600\">"
  const StatClose: string := "</p></div></div>"

  /** One stat card of the about section; `stat.icon` is spliced in unlocalized. */
  function StatItem(stat: Value, lang: Lang): (r: Completion<string>)
    ensures r.Thrown? <==> Nullish(stat)
    ensures r.Normal? ==> Contains(r.value, ToStr(Localize(Member(stat, "value"), lang)))
    ensures r.Normal? ==> Contains(r.value, ToStr(Localize(Member(stat, "label"), lang)))
  {
    if Nullish(stat) then Thrown
    else
      var valueText := ToStr(Localize(Member(stat, "value"), lang));
      var pre := StatOpen + ToStr(Member(stat, "icon")) + StatValue + valueText + StatLabel;
      var labelText := ToStr(Localize(Member(stat, "label"), lang));
      ContainsInfix(StatOpen + ToStr(Member(stat, "icon")) + StatValue, valueText, StatLabel);
      ContainsExtended(pre, valueText, labelText);
      ContainsExtended(pre + labelText, valueText, StatClose);
      ContainsInfix(pre, labelText, StatClose);
      Normal(pre + labelText + StatClose)
  }

  const AboutSkillOpen: string :=
    "<div class=\"bg-gray-900/60 light:bg-white/80 p-6 "
    + "rounded-xl border border-gray-800/40 light:border-gray-300/40 "
    + "shadow-xl hover:shadow-2xl light:hover:shadow-xl "
    + "hover:border-indigo-500/30 transition-all duration-300 "
    + "group backdrop-blur-sm\"><div class=\"text-indigo-400 "
    + "light:text-indigo-600 text-3xl mb-3 group-hover:scale-110 "
    + "transition-transform duration-300\"><i class=\"fas fa-"
  const AboutSkillTitle: string :=
    "\"></i></div><h3 class=\"font-semibold mb-2 text-gray-100 "
    + "light:text-gray-900\">"
  const AboutSkillDescription: string := "</h3><p class=\"text-sm text-gray-500 light:text-gray-600\">"
  const ParagraphDivClose: string := "</p></div>"

  /** One skill card of the about section. */
  function AboutSkillItem(skill: Value, lang: Lang): (r: Completion<string>)
    ensures r.Thrown? <==> Nullish(skill)
    ensures r.Normal? ==> Contains(r.value, ToStr(Localize(Member(skill, "title"), lang)))
    ensures r.Normal? ==> Contains(r.value, ToStr(Localize(Member(skill, "description"), lang)))
  {
    if Nullish(skill) then Thrown
    else
      var title := ToStr(Localize(Member(skill, "title"), lang));
      var pre := AboutSkillOpen + ToStr(Member(skill, "icon")) + AboutSkillTitle + title + AboutSkillDescription;
      var description := ToStr(Localize(Member(skill, "description"), lang));
      ContainsInfix(AboutSkillOpen + ToStr(Member(skill, "icon")) + AboutSkillTitle, title, AboutSkillDescription);
      ContainsExtended(pre, title, description);
      ContainsExtended(pre + description, title, ParagraphDivClose);
      ContainsInfix(pre, description, ParagraphDivClose);
      Normal(pre + description + ParagraphDivClose)
  }

  // ----- education and languages (js/script.js:520-577) -----

  /** The credential badge an education item shows for a WES evaluation. */
  const WesBadge: string :=
    "<div class=\"lg:text-right\"><a href=\"https://wes.org\" "
    + "target=\"_blank\" class=\"inline-flex items-center "
    + "px-4 py-2 bg-gradient-to-r from-green-900/50 to-emerald-900/50 "
    + "text-green-300 rounded-lg border border-green-700/40 "
    + "hover:border-green-500/60 hover:bg-green-800/40 "
    + "transition-all duration-300 group\"><i class=\"fas "
    + "fa-award mr-2 text-green-400\"></i><span class=\"font-semibold\">"
    + "WES</span><i class=\"fas fa-external-link-alt ml-2 "
    + "text-xs opacity-0 group-hover:opacity-100 transition-opacity "
    + "duration-300\"></i></a><p class=\"text-xs text-gray-500 "
    + "mt-2\">Credential Evaluation</p></div>"

  /** `edu.badges && edu.badges.includes('WES')` evaluates to true. */
  predicate HasWes(badges: Value) {
    Truthy(badges) && Includes(badges, "WES") == Normal(true)
  }

  const EducationBody: string :=
    "<div class=\"flex flex-col lg:flex-row lg:justify-between "
    + "lg:items-start gap-4 mb-4\"><div class=\"flex-1\">"
    + "<h3 class=\"text-xl font-bold text-gray-100 mb-2\">"
  const EducationDegree: string := "</h3><p class=\"text-indigo-400 font-medium mb-3\">"
  const EducationYear: string := "</p><span class=\"text-gray-400 bg-gray-800/50 px-3 py-1 rounded-lg\">"

  /**
    One education item: institution and year spliced in as they are, the
    degree localized, and the WES badge when the badges include `'WES'`.
    `includes` exists only on arrays and strings; on any other truthy
    `badges` it throws.
  */
  function EducationItem(edu: Value, lang: Lang): (r: Completion<string>)
    ensures r.Thrown? <==> Nullish(edu)
                           || (Truthy(Member(edu, "badges")) && !(Member(edu, "badges").Arr? || Member(edu, "badges").Str?))
    ensures r.Normal? && HasWes(Member(edu, "badges")) ==> Contains(r.value, WesBadge)
    ensures r.Normal? ==> Contains(r.value, EducationFacts(edu, lang))
  {
    if Nullish(edu) then Thrown
    else
      var badges := Member(edu, "badges");
      var wes: Completion<bool> := if !Truthy(badges) then Normal(false) else Includes(badges, "WES");
      match wes
      case Thrown => Thrown
      case Normal(showBadge) => Normal(EducationMarkup(EducationFacts(edu, lang), showBadge))
  }

  /** An education item's markup once it is known whether the badge shows. */
  function EducationMarkup(facts: string, showBadge: bool): (r: string)
    ensures showBadge ==> Contains(r, WesBadge)
    ensures Contains(r, facts)
  {
    var badge := if showBadge then WesBadge else "";
    ContainsInfix(CardOpen + EducationBody, facts, SpanDivClose);
    ContainsExtended(CardOpen + EducationBody + facts + SpanDivClose, facts, badge);
    ContainsExtended(CardOpen + EducationBody + facts + SpanDivClose + badge, facts, TwoDivsClose);
    ContainsInfix(CardOpen + EducationBody + facts + SpanDivClose, badge, TwoDivsClose);
    CardOpen + EducationBody + facts + SpanDivClose + badge + TwoDivsClose
  }

  /** The institution, the localized degree and the year of an education item, in that order. */
  function EducationFacts(edu: Value, lang: Lang): (r: string)
    ensures Contains(r, ToStr(Member(edu, "institution")))
    ensures Contains(r, ToStr(Localize(Member(edu, "degree"), lang)))
    ensures Contains(r, ToStr(Member(edu, "year")))
  {
    var institution := ToStr(Member(edu, "institution"));
    var degree := ToStr(Localize(Member(edu, "degree"), lang));
    var year := ToStr(Member(edu, "year"));
    ContainsStart(institution, EducationDegree);
    ContainsExtended(institution + EducationDegree, institution, degree);
    ContainsExtended(institution + EducationDegree + degree, institution, EducationYear);
    ContainsExtended(institution + EducationDegree + degree + EducationYear, institution, year);
    ContainsInfix(institution + EducationDegree, degree, EducationYear);
    ContainsExtended(institution + EducationDegree + degree + EducationYear, degree, year);
    ContainsEnd(institution + EducationDegree + degree + EducationYear, year);
    institution + EducationDegree + degree + EducationYear + year
  }

  const LanguageOpen: string :=
    "<div class=\"flex justify-between items-center p-4 "
    + "bg-gray-900/60 rounded-xl shadow-lg border border-gray-800/40 "
    + "backdrop-blur-sm transition-all duration-300 hover:border-indigo-600/30\" "
    + "data-aos=\"fade-up\"><span class=\"font-medium text-gray-100\">"
  const LanguageLevel: string := "</span><span class=\"text-gray-400 bg-gray-800/50 px-3 py-1 rounded-lg\">"

  /** One row of the languages section: the language and its level, both localized. */
  function LanguageItem(entry: Value, lang: Lang): (r: Completion<string>)
    ensures r.Thrown? <==> Nullish(entry)
    ensures r.Normal? ==> Contains(r.value, ToStr(Localize(Member(entry, "language"), lang)))
    ensures r.Normal? ==> Contains(r.value, ToStr(Localize(Member(entry, "level"), lang)))
  {
    if Nullish(entry) then Thrown
    else
      var language := ToStr(Localize(Member(entry, "language"), lang));
      var level := ToStr(Localize(Member(entry, "level"), lang));
      ContainsInfix(LanguageOpen, language, LanguageLevel);
      ContainsExtended(LanguageOpen + language + LanguageLevel, language, level);
      ContainsExtended(LanguageOpen + language + LanguageLevel + level, language, SpanDivClose);
      ContainsInfix(LanguageOpen + language + LanguageLevel, level, SpanDivClose);
      Normal(LanguageOpen + language + LanguageLevel + level + SpanDivClose)
  }

  // ----- skills (js/script.js:626-684) -----

  /** `typeof item === 'object' ? getLocalizedData(item) : item`; `typeof null` is `'object'` too. */
  function CategoryItemValue(item: Value, lang: Lang): (r: Value)
    ensures item.Str? || item.Num? || item.Bool? || item.Undefined? ==> r == item
    ensures item.Null? ==> r == Str("")
    ensures item.Arr? ==> r == item
    ensures item.Obj? ==> r == Localize(item, lang)
  {
    if item.Null? || item.Arr? || item.Obj? then Localize(item, lang) else item
  }

  const CategoryTagOpen: string := "<span class=\"px-3 py-2 bg-"
  const CategoryTagText: string := "-300 rounded-lg text-sm border border-"
  const CategoryTagClose: string := "-800/30 backdrop-blur-sm\">"

  /** One tag of a skill category, in the category's colour. */
  function CategoryTag(item: Value, color: string, lang: Lang): (r: string)
    ensures Contains(r, ToStr(CategoryItemValue(item, lang)))
  {
    ContainsInfix(CategoryTagOpen + color + "-900/40 text-" + color + CategoryTagText + color + CategoryTagClose,
                  ToStr(CategoryItemValue(item, lang)), SpanClose);
    CategoryTagOpen + color + "-900/40 text-" + color + CategoryTagText + color + CategoryTagClose
      + ToStr(CategoryItemValue(item, lang)) + SpanClose
  }

  function CategoryTags(items: seq<Value>, color: string, lang: Lang): string {
    ConcatMap((item: Value) => CategoryTag(item, color, lang), items)
  }

  const CategoryOpen: string := "<div data-aos=\"fade-up\" data-aos-delay=\""
  const CategoryTitle: string := "\"><h4 class=\"text-xl font-semibold mb-4 text-gray-100 dark:text-gray-900\">"
  const CategoryTagsOpen: string := "</h4><div class=\"flex flex-wrap gap-2\">"

  /**
    `createSkillCategory(category, color, delay)`: nothing for a falsy
    category or a falsy `items.length`; otherwise the localized title and one
    tag per item. Items that are not an array but have a truthy `length`
    throw at `map`.
  */
  function CreateSkillCategory(category: Value, color: string, delay: nat, lang: Lang): (r: Completion<string>)
    ensures r == Normal("") <==> !Truthy(category) || !Truthy(Member(Member(category, "items"), "length"))
    ensures r.Thrown? <==> Truthy(category) && Truthy(Member(Member(category, "items"), "length"))
                           && !Member(category, "items").Arr?
    ensures Truthy(category) && Member(category, "items").Arr? && |Member(category, "items").items| > 0 ==>
              r.Normal? && Contains(r.value, CategoryTags(Member(category, "items").items, color, lang))
  {
    if !Truthy(category) then Normal("")
    else
      var items := Member(category, "items");
      if !Truthy(items) || !Truthy(Member(items, "length")) then Normal("")
      else match Elements(items)
        case Thrown => Thrown
        case Normal(entries) =>
          var pre := CategoryOpen + NatToString(delay) + CategoryTitle
            + ToStr(Localize(Member(category, "title"), lang)) + CategoryTagsOpen;
          var tags := CategoryTags(entries, color, lang);
          ContainsInfix(pre, tags, TwoDivsClose);
          Normal(pre + tags + TwoDivsClose)
  }

  const SkillListItemOpen: string := "<div class=\"flex items-start space-x-3\"><i class=\"fas fa-"
  const SkillListItemText: string := " mt-1\"></i><p class=\"text-gray-400 dark:text-gray-600\">"

  /** One entry of a skill list: the item localized. */
  function SkillListItem(item: Value, icon: string, iconColor: string, lang: Lang): (r: string)
    ensures Contains(r, ToStr(Localize(item, lang)))
  {
    ContainsInfix(SkillListItemOpen + icon + " text-" + iconColor + SkillListItemText, ToStr(Localize(item, lang)), ParagraphDivClose);
    SkillListItemOpen + icon + " text-" + iconColor + SkillListItemText + ToStr(Localize(item, lang)) + ParagraphDivClose
  }

  function SkillListItems(items: seq<Value>, icon: string, iconColor: string, lang: Lang): string {
    ConcatMap((item: Value) => SkillListItem(item, icon, iconColor, lang), items)
  }

  /**
    `createSkillList(items, icon, iconColor)`: nothing for falsy items or a
    falsy `length`; for an array, exactly one entry per item in order, with
    no surrounding element.
  */
  function CreateSkillList(items: Value, icon: string, iconColor: string, lang: Lang): (r: Completion<string>)
    ensures r == Normal("") <==> !Truthy(Member(items, "length"))
    ensures r.Thrown? <==> Truthy(Member(items, "length")) && !items.Arr?
    ensures items.Arr? ==> r == Normal(SkillListItems(items.items, icon, iconColor, lang))
  {
    if !Truthy(items) || !Truthy(Member(items, "length")) then Normal("")
    else match Elements(items)
      case Thrown => Thrown
      case Normal(entries) => Normal(SkillListItems(entries, icon, iconColor, lang))
  }

  const SkillsBlockTitleOpen: string := "<h3 class=\"text-2xl font-semibold mb-6 text-gray-100 dark:text-gray-900\">"
  const HeadingClose: string := "</h3>"

  /** The `<h3>` title of the technical and methodologies blocks. */
  function SkillsBlockTitle(text: Value): string {
    SkillsBlockTitleOpen + ToStr(text) + HeadingClose
  }

  const TechnicalOpen: string := "<!-- Technical Skills --><div class=\"mb-12\" data-aos=\"fade-up\">"
  const SkillGridOpen: string := "<div class=\"grid md:grid-cols-2 gap-6\">"
  const CategoriesOpen: string :=
    "<!-- Frameworks & Technologies --><div class=\"grid "
    + "md:grid-cols-2 lg:grid-cols-4 gap-8 mb-12\">"
  const MethodologiesOpen: string := "<!-- Methodologies --><div class=\"mb-12\" data-aos=\"fade-up\">"

  /** A titled block of skill cards: the technical skills or the methodologies. */
  function SkillsBlock(open: string, title: Value, list: string): (r: string)
    ensures Contains(r, SkillsBlockTitle(title))
    ensures Contains(r, list)
  {
    ContainsInfix(open, SkillsBlockTitle(title), SkillGridOpen + list + TwoDivsClose);
    ContainsInfix(SkillGridOpen, list, TwoDivsClose);
    ContainsPrefixed(open + SkillsBlockTitle(title), SkillGridOpen + list + TwoDivsClose, list);
    open + SkillsBlockTitle(title) + (SkillGridOpen + list + TwoDivsClose)
  }

  /** The grid holding the four skill categories. */
  function CategoriesBlock(categories: string): (r: string)
    ensures Contains(r, categories)
  {
    ContainsInfix(CategoriesOpen, categories, DivClose);
    CategoriesOpen + categories + DivClose
  }

  /** The technical skills list. */
  function TechnicalList(skills: Value, lang: Lang): Completion<string> {
    CreateSkillList(Member(Member(skills, "technical"), "items"), "check", "green-400", lang)
  }

  /** The methodologies list. */
  function MethodologyList(skills: Value, lang: Lang): Completion<string> {
    CreateSkillList(Member(Member(skills, "methodologies"), "items"), "cog", "indigo-400", lang)
  }

  /** The frameworks, languages, databases and tools categories, in that order. */
  function Categories(skills: Value, lang: Lang): seq<Completion<string>> {
    [CreateSkillCategory(Member(skills, "frameworks"), "blue", 0, lang),
     CreateSkillCategory(Member(skills, "languages"), "green", 100, lang),
     CreateSkillCategory(Member(skills, "databases"), "purple", 200, lang),
     CreateSkillCategory(Member(skills, "tools"), "orange", 300, lang)]
  }

  /** Whether any of the six parts of the skills markup throws. */
  predicate SkillsPartThrows(skills: Value, lang: Lang) {
    TechnicalList(skills, lang).Thrown? || MethodologyList(skills, lang).Thrown?
    || Categories(skills, lang)[0].Thrown? || Categories(skills, lang)[1].Thrown?
    || Categories(skills, lang)[2].Thrown? || Categories(skills, lang)[3].Thrown?
  }

  /** A skill list throws when its items have a truthy `length` but are no array. */
  predicate ListMalformed(items: Value) {
    Truthy(Member(items, "length")) && !items.Arr?
  }

  /** A present category throws when its items have a truthy `length` but are no array. */
  predicate CategoryMalformed(category: Value) {
    Truthy(category) && ListMalformed(Member(category, "items"))
  }

  lemma ListsThrowWhenMalformed(skills: Value, lang: Lang)
    ensures TechnicalList(skills, lang).Thrown? == ListMalformed(Member(Member(skills, "technical"), "items"))
    ensures MethodologyList(skills, lang).Thrown? == ListMalformed(Member(Member(skills, "methodologies"), "items"))
  {
  }

  lemma CategoriesThrowWhenMalformed(skills: Value, lang: Lang)
    ensures Categories(skills, lang)[0].Thrown? == CategoryMalformed(Member(skills, "frameworks"))
    ensures Categories(skills, lang)[1].Thrown? == CategoryMalformed(Member(skills, "languages"))
    ensures Categories(skills, lang)[2].Thrown? == CategoryMalformed(Member(skills, "databases"))
    ensures Categories(skills, lang)[3].Thrown? == CategoryMalformed(Member(skills, "tools"))
  {
  }

  /** Whether a part of the skills markup throws does not depend on the language. */
  lemma SkillsPartsThrowAlike(skills: Value, lang: Lang)
    ensures SkillsPartThrows(skills, Fr) == SkillsPartThrows(skills, lang)
  {
    ListsThrowWhenMalformed(skills, Fr);
    ListsThrowWhenMalformed(skills, lang);
    CategoriesThrowWhenMalformed(skills, Fr);
    CategoriesThrowWhenMalformed(skills, lang);
  }

  /**
    `createSkillsHTML()`: the technical block, the four categories and the
    methodologies block. Reading `title` of a missing `technical` or
    `methodologies` entry throws, and so does any part that throws.
  */
  function CreateSkillsHtml(skills: Value, lang: Lang): (r: Completion<string>)
    ensures r.Thrown? <==> Nullish(Member(skills, "technical")) || Nullish(Member(skills, "methodologies"))
                           || SkillsPartThrows(skills, lang)
  {
    var technical := Member(skills, "technical");
    var methodologies := Member(skills, "methodologies");
    var categories := Categories(skills, lang);
    if Nullish(technical) || Nullish(methodologies) || SkillsPartThrows(skills, lang) then Thrown
    else
      Normal(SkillsBlock(TechnicalOpen, Localize(Member(technical, "title"), lang), TechnicalList(skills, lang).value)
        + CategoriesBlock(categories[0].value + categories[1].value + categories[2].value + categories[3].value)
        + SkillsBlock(MethodologiesOpen, Localize(Member(methodologies, "title"), lang), MethodologyList(skills, lang).value))
  }

  /** The technical block opens the skills markup and shows its title and list. */
  lemma SkillsHtmlShowsTechnical(skills: Value, lang: Lang)
    requires CreateSkillsHtml(skills, lang).Normal?
    ensures Contains(CreateSkillsHtml(skills, lang).value,
                     SkillsBlockTitle(Localize(Member(Member(skills, "technical"), "title"), lang)))
    ensures Contains(CreateSkillsHtml(skills, lang).value, TechnicalList(skills, lang).value)
  {
    var categories := Categories(skills, lang);
    var first := SkillsBlock(TechnicalOpen, Localize(Member(Member(skills, "technical"), "title"), lang),
                             TechnicalList(skills, lang).value);
    var middle := CategoriesBlock(categories[0].value + categories[1].value + categories[2].value + categories[3].value);
    var last := SkillsBlock(MethodologiesOpen, Localize(Member(Member(skills, "methodologies"), "title"), lang),
                            MethodologyList(skills, lang).value);
    var all := CreateSkillsHtml(skills, lang).value;
    assert all == first + middle + last;
    ContainsStart(first, middle);
    ContainsExtended(first + middle, first, last);
    ContainsTrans(all, first, SkillsBlockTitle(Localize(Member(Member(skills, "technical"), "title"), lang)));
    ContainsTrans(all, first, TechnicalList(skills, lang).value);
  }

  /** The four skill categories follow, side by side and in order. */
  lemma SkillsHtmlShowsCategories(skills: Value, lang: Lang)
    requires CreateSkillsHtml(skills, lang).Normal?
    ensures Contains(CreateSkillsHtml(skills, lang).value,
                     Categories(skills, lang)[0].value + Categories(skills, lang)[1].value
                     + Categories(skills, lang)[2].value + Categories(skills, lang)[3].value)
  {
    var categories := Categories(skills, lang);
    var first := SkillsBlock(TechnicalOpen, Localize(Member(Member(skills, "technical"), "title"), lang),
                             TechnicalList(skills, lang).value);
    var middle := CategoriesBlock(categories[0].value + categories[1].value + categories[2].value + categories[3].value);
    var last := SkillsBlock(MethodologiesOpen, Localize(Member(Member(skills, "methodologies"), "title"), lang),
                            MethodologyList(skills, lang).value);
    var all := CreateSkillsHtml(skills, lang).value;
    assert all == first + middle + last;
    ContainsInfix(first, middle, last);
    ContainsTrans(all, middle, categories[0].value + categories[1].value + categories[2].value + categories[3].value);
  }

  /** The methodologies block closes the skills markup and shows its title and list. */
  lemma SkillsHtmlShowsMethodologies(skills: Value, lang: Lang)
    requires CreateSkillsHtml(skills, lang).Normal?
    ensures Contains(CreateSkillsHtml(skills, lang).value,
                     SkillsBlockTitle(Localize(Member(Member(skills, "methodologies"), "title"), lang)))
    ensures Contains(CreateSkillsHtml(skills, lang).value, MethodologyList(skills, lang).value)
  {
    var categories := Categories(skills, lang);
    var front := SkillsBlock(TechnicalOpen, Localize(Member(Member(skills, "technical"), "title"), lang),
                             TechnicalList(skills, lang).value)
      + CategoriesBlock(categories[0].value + categories[1].value + categories[2].value + categories[3].value);
    var last := SkillsBlock(MethodologiesOpen, Localize(Member(Member(skills, "methodologies"), "title"), lang),
                            MethodologyList(skills, lang).value);
    var all := CreateSkillsHtml(skills, lang).value;
    assert all == front + last;
    ContainsEnd(front, last);
    ContainsTrans(all, last, SkillsBlockTitle(Localize(Member(Member(skills, "methodologies"), "title"), lang)));
    ContainsTrans(all, last, MethodologyList(skills, lang).value);
  }

  // ----- component errors (js/script.js:687-690) -----

  const ErrorOpen: string := "<p class=\"p-4 text-center text-red-500\">"

  /** What `showError` writes into a placeholder whose fragment failed to load. */
  function ErrorMarkup(componentName: string): (r: string)
    ensures Contains(r, "Error loading " + componentName)
  {
    ContainsInfix(ErrorOpen, "Error loading " + componentName, ParagraphClose);
    ErrorOpen + ("Error loading " + componentName) + ParagraphClose
  }

  // ----- properties relating builders to their inputs -----

  /** An experience entry with `results: []` renders exactly as one without `results`: no heading, no list. */
  lemma EmptyResultsRenderNothing(fields: map<string, Value>, lang: Lang)
    ensures CreateExperienceCard(Obj(fields["results" := Arr([])]), lang)
         == CreateExperienceCard(Obj(fields - {"results"}), lang)
  {
    var with := Obj(fields["results" := Arr([])]);
    var without := Obj(fields - {"results"});
    SameFieldsExcept(with, without, "results");
    NoResultsSection(Arr([]), lang);
    NoResultsSection(Undefined, lang);
    SameCardInputs(with, without, lang);
  }

  /** An empty or missing results list renders no results section. */
  lemma NoResultsSection(results: Value, lang: Lang)
    requires results == Arr([]) || results == Undefined
    ensures CreateListSection("results", Localize(results, lang), "check", "green-400", lang) == ""
  {
  }

  /** Two experience values that feed the card the same inputs render the same card. */
  lemma SameCardInputs(a: Value, b: Value, lang: Lang)
    requires Nullish(a) == Nullish(b)
    requires Member(a, "company") == Member(b, "company") && Member(a, "role") == Member(b, "role")
    requires Member(a, "duration") == Member(b, "duration") && Member(a, "type") == Member(b, "type")
    requires Member(a, "context") == Member(b, "context")
    requires Member(a, "responsibilities") == Member(b, "responsibilities")
    requires CreateListSection("results", Localize(Member(a, "results"), lang), "check", "green-400", lang)
          == CreateListSection("results", Localize(Member(b, "results"), lang), "check", "green-400", lang)
    requires Or(Member(a, "techStack"), Arr([])) == Or(Member(b, "techStack"), Arr([]))
    ensures CreateExperienceCard(a, lang) == CreateExperienceCard(b, lang)
  {
    assert ExperienceSections(a, lang) == ExperienceSections(b, lang);
  }

  /** The card fields other than `skipped` read the same in `a` and `b`. */
  predicate CardFieldsAgree(a: Value, b: Value, skipped: string) {
    forall key | key in CardFields && key != skipped :: Member(a, key) == Member(b, key)
  }

  /** The fields `createExperienceCard` reads. */
  const CardFields: set<string> :=
    {"company", "role", "duration", "context", "type", "responsibilities", "results", "techStack"}

  lemma SameFieldsExcept(a: Value, b: Value, skipped: string)
    requires CardFieldsAgree(a, b, skipped)
    ensures skipped != "company" ==> Member(a, "company") == Member(b, "company")
    ensures skipped != "role" ==> Member(a, "role") == Member(b, "role")
    ensures skipped != "duration" ==> Member(a, "duration") == Member(b, "duration")
    ensures skipped != "context" ==> Member(a, "context") == Member(b, "context")
    ensures skipped != "type" ==> Member(a, "type") == Member(b, "type")
    ensures skipped != "responsibilities" ==> Member(a, "responsibilities") == Member(b, "responsibilities")
    ensures skipped != "results" ==> Member(a, "results") == Member(b, "results")
    ensures skipped != "techStack" ==> Member(a, "techStack") == Member(b, "techStack")
  {
  }

  /** A missing `techStack` renders exactly as an empty one: `exp.techStack || []`. */
  lemma MissingTechStackIsEmpty(fields: map<string, Value>, lang: Lang)
    ensures CreateExperienceCard(Obj(fields - {"techStack"}), lang)
         == CreateExperienceCard(Obj(fields["techStack" := Arr([])]), lang)
  {
    var with := Obj(fields["techStack" := Arr([])]);
    var without := Obj(fields - {"techStack"});
    SameFieldsExcept(with, without, "techStack");
    assert Or(Member(with, "techStack"), Arr([])) == Or(Member(without, "techStack"), Arr([]));
    SameCardInputs(with, without, lang);
  }

  /**
    An education item whose badges do not include `'WES'` renders exactly as
    one with the same institution, degree and year and no badges at all.
  */
  lemma NoWesRendersNoBadge(a: Value, b: Value, lang: Lang)
    requires !HasWes(Member(a, "badges")) && EducationItem(a, lang).Normal?
    requires !Nullish(b) && !Truthy(Member(b, "badges"))
    requires Member(a, "institution") == Member(b, "institution")
    requires Member(a, "degree") == Member(b, "degree")
    requires Member(a, "year") == Member(b, "year")
    ensures EducationItem(a, lang) == EducationItem(b, lang)
  {
    NoWesItem(a, lang);
    NoWesItem(b, lang);
    assert EducationFacts(a, lang) == EducationFacts(b, lang);
  }

  /** Without a `'WES'` badge an item that renders is its facts with no badge. */
  lemma NoWesItem(edu: Value, lang: Lang)
    requires !HasWes(Member(edu, "badges")) && EducationItem(edu, lang).Normal?
    ensures EducationItem(edu, lang) == Normal(EducationMarkup(EducationFacts(edu, lang), false))
  {
  }

  /** A `'WES'` entry among the badges always shows the badge. */
  lemma WesEntryShowsBadge(fields: map<string, Value>, badges: seq<Value>, lang: Lang)
    requires Str("WES") in badges
    ensures EducationItem(Obj(fields["badges" := Arr(badges)]), lang).Normal?
    ensures Contains(EducationItem(Obj(fields["badges" := Arr(badges)]), lang).value, WesBadge)
  {
    assert HasWes(Member(Obj(fields["badges" := Arr(badges)]), "badges"));
  }
}
