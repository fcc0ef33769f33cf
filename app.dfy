/**
  `PortfolioApp` (js/script.js:2-690), the object that drives the page: it
  holds the current language and the loaded content, loads the HTML
  fragments and the content documents, and re-renders the page when the
  language changes. Every render method is proved to perform exactly the
  writes of its effect in the `Render` module, and to report a throw exactly
  when that effect does.

  Fetching is a parameter: `fetchText` gives the outcome of fetching a
  fragment's text and `fetchJson` that of fetching and parsing a content
  document.
*/
module App {
  import opened Json
  import opened Localization
  import opened Markup
  import opened Dom
  import opened Render

  /** `this.components`: each container's id and the name of the fragment loaded into it. */
  const Components: seq<(string, string)> := [
    ("navigation-container", "navigation"),
    ("hero-container", "hero"),
    ("about-container", "about"),
    ("skills-container", "skills"),
    ("experience-container", "experience"),
    ("education-container", "education"),
    ("languages-container", "languages"),
    ("contact-container", "contact"),
    ("footer-container", "footer")
  ]

  function ComponentUrl(name: string): string {
    "components/" + name + ".html"
  }

  /** What a container receives: the fragment, or the error message when fetching it failed. */
  function ComponentCell(name: string, fetched: Fetched<string>): (c: Cell)
    ensures fetched.Ok? ==> c == Html(fetched.body)
    ensures fetched.Failed? ==> c.Html? && Contains(c.markup, "Error loading " + name)
  {
    if fetched.Ok? then Html(fetched.body) else Html(ErrorMarkup(name))
  }

  /** No two fragments share a container, so their writes never overwrite each other. */
  lemma ComponentsDistinct()
    ensures forall i, j | 0 <= i < j < |Components| :: Components[i].0 != Components[j].0
  {
  }

  /**
    `loadComponents()` over the first `n` fragments. Every fragment is
    fetched, and each one's container receives the fragment or the error
    message. A missing container makes both the fragment's and the error's
    `innerHTML` assignment throw, which rejects `Promise.all`; the other
    fragments are written all the same.
  */
  function LoadComponentsEffect(layout: Layout, fetchText: string -> Fetched<string>, n: nat): Effect
    requires n <= |Components|
  {
    if n == 0 then Done
    else
      var prefix := LoadComponentsEffect(layout, fetchText, n - 1);
      var (containerId, name) := Components[n - 1];
      if Id(containerId) in layout.present then
        Effect(prefix.writes + [Put(Single(Id(containerId)), ComponentCell(name, fetchText(ComponentUrl(name))))], prefix.completed)
      else Effect(prefix.writes, false)
  }

  /** The element fragment `i` is loaded into. */
  function ContainerKey(i: nat): Key
    requires i < |Components|
  {
    Single(Id(Components[i].0))
  }

  predicate ContainerPresent(layout: Layout, i: nat)
    requires i < |Components|
  {
    Id(Components[i].0) in layout.present
  }

  /** The last of the first `n` fragments has a container of its own. */
  lemma LastContainerIsNew(n: nat)
    requires 0 < n <= |Components|
    ensures forall i | 0 <= i < n - 1 :: ContainerKey(i) != ContainerKey(n - 1)
  {
    ComponentsDistinct();
  }

  /** `loadComponents()` over the first `n` fragments completes iff every container exists. */
  lemma {:induction false} LoadComponentsCompletes(layout: Layout, fetchText: string -> Fetched<string>, n: nat)
    requires n <= |Components|
    ensures LoadComponentsEffect(layout, fetchText, n).completed
        <==> forall i | 0 <= i < n :: ContainerPresent(layout, i)
  {
    if n > 0 {
      LoadComponentsCompletes(layout, fetchText, n - 1);
      if forall i | 0 <= i < n :: ContainerPresent(layout, i) {
        assert forall i | 0 <= i < n - 1 :: ContainerPresent(layout, i);
        assert ContainerPresent(layout, n - 1);
        assert LoadComponentsEffect(layout, fetchText, n - 1).completed;
      } else {
        var j :| 0 <= j < n && !ContainerPresent(layout, j);
        if j < n - 1 {
          assert !LoadComponentsEffect(layout, fetchText, n - 1).completed;
        } else {
          assert !ContainerPresent(layout, n - 1);
        }
      }
    }
  }

  /** It writes only into containers of the first `n` fragments. */
  lemma {:induction false} LoadComponentsKeys(layout: Layout, fetchText: string -> Fetched<string>, n: nat)
    requires n <= |Components|
    ensures forall k | k in Written(LoadComponentsEffect(layout, fetchText, n).writes) ::
              exists i | 0 <= i < n :: k == ContainerKey(i)
  {
    if n > 0 {
      LoadComponentsKeys(layout, fetchText, n - 1);
      var prefix := LoadComponentsEffect(layout, fetchText, n - 1);
      var e := LoadComponentsEffect(layout, fetchText, n);
      if ContainerPresent(layout, n - 1) {
        var (containerId, name) := Components[n - 1];
        WrittenSnoc(prefix.writes, Put(Single(Id(containerId)), ComponentCell(name, fetchText(ComponentUrl(name)))));
      }
      forall k | k in Written(e.writes) ensures exists i | 0 <= i < n :: k == ContainerKey(i) {
        if k != ContainerKey(n - 1) {
          assert k in Written(prefix.writes);
          var i :| 0 <= i < n - 1 && k == ContainerKey(i);
        }
      }
    }
  }

  /** It writes into exactly the containers that exist. */
  lemma {:induction false} LoadComponentsPresence(layout: Layout, fetchText: string -> Fetched<string>, n: nat)
    requires n <= |Components|
    ensures forall i | 0 <= i < n ::
              ContainerKey(i) in Written(LoadComponentsEffect(layout, fetchText, n).writes) <==> ContainerPresent(layout, i)
  {
    if n > 0 {
      LoadComponentsPresence(layout, fetchText, n - 1);
      LoadComponentsKeys(layout, fetchText, n - 1);
      LastContainerIsNew(n);
      var prefix := LoadComponentsEffect(layout, fetchText, n - 1);
      var e := LoadComponentsEffect(layout, fetchText, n);
      if ContainerPresent(layout, n - 1) {
        var (containerId, name) := Components[n - 1];
        WrittenSnoc(prefix.writes, Put(Single(Id(containerId)), ComponentCell(name, fetchText(ComponentUrl(name)))));
      }
      forall i | 0 <= i < n
        ensures ContainerKey(i) in Written(e.writes) <==> ContainerPresent(layout, i)
      {
        if i < n - 1 {
          assert ContainerKey(i) != ContainerKey(n - 1);
        } else {
          assert i == n - 1;
          if !ContainerPresent(layout, i) {
            assert ContainerKey(i) !in Written(prefix.writes);
          }
        }
      }
    }
  }

  /** Each existing container receives its fragment, or the error message when fetching it failed. */
  lemma {:induction false} LoadComponentsCells(layout: Layout, fetchText: string -> Fetched<string>, n: nat)
    requires n <= |Components|
    ensures forall i | 0 <= i < n && ContainerPresent(layout, i) ::
              var w := Written(LoadComponentsEffect(layout, fetchText, n).writes);
              ContainerKey(i) in w && w[ContainerKey(i)] == ComponentCell(Components[i].1, fetchText(ComponentUrl(Components[i].1)))
  {
    if n > 0 {
      LoadComponentsCells(layout, fetchText, n - 1);
      LastContainerIsNew(n);
      var prefix := LoadComponentsEffect(layout, fetchText, n - 1);
      var e := LoadComponentsEffect(layout, fetchText, n);
      if ContainerPresent(layout, n - 1) {
        var (containerId, name) := Components[n - 1];
        WrittenSnoc(prefix.writes, Put(Single(Id(containerId)), ComponentCell(name, fetchText(ComponentUrl(name)))));
      }
      forall i | 0 <= i < n && ContainerPresent(layout, i)
        ensures ContainerKey(i) in Written(e.writes)
             && Written(e.writes)[ContainerKey(i)] == ComponentCell(Components[i].1, fetchText(ComponentUrl(Components[i].1)))
      {
        if i < n - 1 {
          assert ContainerKey(i) != ContainerKey(n - 1);
        } else {
          assert i == n - 1;
        }
      }
    }
  }

  /** The content documents, in the order `loadData` destructures them. */
  const Endpoints: seq<string> := [
    "data/hero.json", "data/about.json", "data/experience.json", "data/education.json",
    "data/languages.json", "data/skills.json", "data/navigation.json", "data/contact.json"
  ]

  /**
    `Promise.all(endpoints.map(fetchJSON))` and its destructuring: the
    content is there only when every document loaded, and each field holds
    the document of its own name.
  */
  function Assemble(fetchJson: string -> Fetched<Value>): (r: Option<Bundle>)
    ensures r.Some? <==> forall i | 0 <= i < |Endpoints| :: fetchJson(Endpoints[i]).Ok?
    ensures r.Some? ==> fetchJson("data/hero.json").Ok? && r.value.hero == fetchJson("data/hero.json").body
    ensures r.Some? ==> fetchJson("data/about.json").Ok? && r.value.about == fetchJson("data/about.json").body
    ensures r.Some? ==> fetchJson("data/experience.json").Ok? && r.value.experience == fetchJson("data/experience.json").body
    ensures r.Some? ==> fetchJson("data/education.json").Ok? && r.value.education == fetchJson("data/education.json").body
    ensures r.Some? ==> fetchJson("data/languages.json").Ok? && r.value.languages == fetchJson("data/languages.json").body
    ensures r.Some? ==> fetchJson("data/skills.json").Ok? && r.value.skills == fetchJson("data/skills.json").body
    ensures r.Some? ==> fetchJson("data/navigation.json").Ok? && r.value.navigation == fetchJson("data/navigation.json").body
    ensures r.Some? ==> fetchJson("data/contact.json").Ok? && r.value.contact == fetchJson("data/contact.json").body
  {
    if exists i | 0 <= i < |Endpoints| :: fetchJson(Endpoints[i]).Failed? then None
    else
      assert fetchJson(Endpoints[0]).Ok? && fetchJson(Endpoints[1]).Ok? && fetchJson(Endpoints[2]).Ok?
          && fetchJson(Endpoints[3]).Ok? && fetchJson(Endpoints[4]).Ok? && fetchJson(Endpoints[5]).Ok?
          && fetchJson(Endpoints[6]).Ok? && fetchJson(Endpoints[7]).Ok?;
      Some(Bundle(fetchJson(Endpoints[0]).body, fetchJson(Endpoints[1]).body, fetchJson(Endpoints[2]).body,
                  fetchJson(Endpoints[3]).body, fetchJson(Endpoints[4]).body, fetchJson(Endpoints[5]).body,
                  fetchJson(Endpoints[6]).body, fetchJson(Endpoints[7]).body))
  }

  /** `updateLanguageButton()`: both toggle buttons show the upper-cased language code. */
  function LanguageButtonsEffect(layout: Layout, lang: Lang): (e: Effect)
    ensures e.completed
    ensures Written(e.writes).Keys <= {Single(Id("language-toggle")), Single(Id("language-toggle-mobile"))}
    ensures Id("language-toggle") in layout.present ==> Single(Id("language-toggle")) in Written(e.writes)
    ensures Id("language-toggle-mobile") in layout.present ==> Single(Id("language-toggle-mobile")) in Written(e.writes)
    ensures Id("language-toggle") in layout.present ==>
              Written(e.writes)[Single(Id("language-toggle"))] == Text(ButtonLabel(lang))
    ensures Id("language-toggle-mobile") in layout.present ==>
              Written(e.writes)[Single(Id("language-toggle-mobile"))] == Text(ButtonLabel(lang))
  {
    var desktop := AssignText(layout, Id("language-toggle"), Str(ButtonLabel(lang)));
    var mobile := AssignText(layout, Id("language-toggle-mobile"), Str(ButtonLabel(lang)));
    assert Single(Id("language-toggle")) !in Written(mobile.writes);
    Then(desktop, mobile)
  }

  /** The navigation `forEach` that has hit a link without `href` ends there: later links change nothing. */
  lemma {:induction false} NavLinksAbortStays(hrefs: seq<Option<string>>, n: nat, nav: Value, lang: Lang, desktop: bool)
    requires n <= |hrefs|
    requires !NavLinksEffect(hrefs[..n], nav, lang, desktop).completed
    ensures NavLinksEffect(hrefs, nav, lang, desktop) == NavLinksEffect(hrefs[..n], nav, lang, desktop)
    decreases |hrefs| - n
  {
    if n < |hrefs| {
      var init := hrefs[..|hrefs| - 1];
      assert init[..n] == hrefs[..n];
      NavLinksAbortStays(init, n, nav, lang, desktop);
    } else {
      assert hrefs[..n] == hrefs;
    }
  }

  class PortfolioApp {
    const doc: Document
    /** `this.currentLang`. */
    var currentLang: Lang
    /** `this.data`: `null` until every content document has loaded. */
    var data: Option<Bundle>

    /** A new app starts in French with no content. */
    constructor(document: Document)
      ensures doc == document
      ensures currentLang == InitialLang
      ensures data == None
    {
      doc := document;
      currentLang := InitialLang;
      data := None;
    }

    /** `updateElementText(selector, text)`. */
    method UpdateElementText(t: Target, text: Value)
      modifies doc
      ensures doc.page == Apply(old(doc.page), UpdateText(old(doc.page).layout, t, text).writes)
      ensures doc.page.layout == old(doc.page).layout
      ensures doc.mainVisible == old(doc.mainVisible)
    {
      if t in doc.page.layout.present && Truthy(text) {
        doc.Put(SetText(Single(t), text));
      }
    }

    /** `if (el) el.textContent = text`. */
    method AssignElementText(t: Target, text: Value)
      modifies doc
      ensures doc.page == Apply(old(doc.page), AssignText(old(doc.page).layout, t, text).writes)
      ensures doc.page.layout == old(doc.page).layout
      ensures doc.mainVisible == old(doc.mainVisible)
    {
      if t in doc.page.layout.present {
        doc.Put(SetText(Single(t), text));
      }
    }

    /** Builds markup and, when that did not throw and the element exists, sets its `innerHTML`. */
    method SetInnerHtml(t: Target, markup: Completion<string>) returns (ok: bool)
      modifies doc
      ensures doc.page == Apply(old(doc.page), HtmlWrite(old(doc.page).layout, t, markup).writes)
      ensures ok == markup.Normal?
      ensures doc.page.layout == old(doc.page).layout
      ensures doc.mainVisible == old(doc.mainVisible)
    {
      if markup.Thrown? {
        return false;
      }
      if t in doc.page.layout.present {
        doc.Put(Put(Single(t), Html(markup.value)));
      }
      return true;
    }

    /** One `forEach` of `renderNavigation`. */
    method RenderNavLinks(hrefs: seq<Option<string>>, nav: Value, desktop: bool) returns (ok: bool)
      modifies doc
      ensures doc.page == Apply(old(doc.page), NavLinksEffect(hrefs, nav, currentLang, desktop).writes)
      ensures ok == NavLinksEffect(hrefs, nav, currentLang, desktop).completed
      ensures doc.page.layout == old(doc.page).layout
      ensures doc.mainVisible == old(doc.mainVisible)
    {
      ghost var p0 := doc.page;
      var lang := currentLang;
      var i := 0;
      while i < |hrefs|
        invariant 0 <= i <= |hrefs|
        invariant NavLinksEffect(hrefs[..i], nav, lang, desktop).completed
        invariant doc.page == Apply(p0, NavLinksEffect(hrefs[..i], nav, lang, desktop).writes)
        invariant doc.page.layout == p0.layout
        invariant doc.mainVisible == old(doc.mainVisible)
      {
        assert hrefs[..i + 1][..i] == hrefs[..i];
        ghost var before := NavLinksEffect(hrefs[..i], nav, lang, desktop).writes;
        if hrefs[i].None? {
          NavLinksAbortStays(hrefs, i + 1, nav, lang, desktop);
          return false;
        }
        var entry := Member(nav, Section(hrefs[i].value));
        if Truthy(entry) {
          var w := Put(Item(NavList(desktop), i), NavCell(desktop, i, entry, lang));
          doc.Put(w);
          ApplyAppend(p0, before, [w]);
        }
        i := i + 1;
      }
      assert hrefs[..i] == hrefs;
      return true;
    }

    /** `renderNavigation()`. */
    method RenderNavigation() returns (ok: bool)
      modifies doc
      ensures doc.page == Apply(old(doc.page), RenderNavigationEffect(old(doc.page).layout, data, currentLang).writes)
      ensures ok == RenderNavigationEffect(old(doc.page).layout, data, currentLang).completed
      ensures doc.page.layout == old(doc.page).layout
      ensures doc.mainVisible == old(doc.mainVisible)
    {
      ghost var p0 := doc.page;
      var layout := doc.page.layout;
      if data.None? || !Truthy(data.value.navigation) {
        return true;
      }
      var nav := data.value.navigation;
      ghost var desktop := NavLinksEffect(layout.navHrefs, nav, currentLang, true);
      ok := RenderNavLinks(layout.navHrefs, nav, true);
      if !ok {
        return;
      }
      ok := RenderNavLinks(layout.mobileHrefs, nav, false);
      ApplyThen(p0, desktop, NavLinksEffect(layout.mobileHrefs, nav, currentLang, false));
    }

    /** `renderHero()`. */
    method RenderHero() returns (ok: bool)
      modifies doc
      ensures doc.page == Apply(old(doc.page), RenderHeroEffect(old(doc.page).layout, data, currentLang).writes)
      ensures ok == RenderHeroEffect(old(doc.page).layout, data, currentLang).completed
      ensures doc.page.layout == old(doc.page).layout
      ensures doc.mainVisible == old(doc.mainVisible)
    {
      ghost var p0 := doc.page;
      var layout := doc.page.layout;
      if data.None? || !Truthy(data.value.hero) || !Truthy(data.value.about) {
        return true;
      }
      var hero := data.value.hero;
      var lang := currentLang;
      ghost var e := UpdateText(layout, Sel("#name"), Localize(Member(hero, "name"), lang));
      UpdateElementText(Sel("#name"), Localize(Member(hero, "name"), lang));

      ghost var step := UpdateText(layout, Sel("#role"), Localize(Member(hero, "role"), lang));
      UpdateElementText(Sel("#role"), Localize(Member(hero, "role"), lang));
      ApplyThen(p0, e, step);
      e := Then(e, step);

      var descriptions := Member(hero, "descriptions");
      step := HeroDescriptionsEffect(layout, descriptions, lang);
      ok := true;
      if Id("hero-description") in layout.present && Truthy(descriptions) {
        ok := SetInnerHtml(Id("hero-description"), HeroDescriptionsMarkup(descriptions, lang));
      }
      ApplyThen(p0, e, step);
      e := Then(e, step);
      if !ok {
        return;
      }

      step := UpdateText(layout, Sel("#contact-btn"), Localize(Member(Member(hero, "buttons"), "contact"), lang));
      UpdateElementText(Sel("#contact-btn"), Localize(Member(Member(hero, "buttons"), "contact"), lang));
      ApplyThen(p0, e, step);
      e := Then(e, step);

      step := UpdateText(layout, Sel("#about-btn"), Localize(Member(Member(hero, "buttons"), "about"), lang));
      UpdateElementText(Sel("#about-btn"), Localize(Member(Member(hero, "buttons"), "about"), lang));
      ApplyThen(p0, e, step);
    }

    /** `renderHeroDescription(descriptions)`. */
    method RenderHeroDescription(descriptions: Value) returns (ok: bool)
      modifies doc
      ensures doc.page == Apply(old(doc.page), RenderHeroDescriptionEffect(old(doc.page).layout, descriptions, currentLang).writes)
      ensures ok == RenderHeroDescriptionEffect(old(doc.page).layout, descriptions, currentLang).completed
      ensures doc.page.layout == old(doc.page).layout
      ensures doc.mainVisible == old(doc.mainVisible)
    {
      var lang := currentLang;
      if Id("hero-description") !in doc.page.layout.present || !Truthy(descriptions) {
        return true;
      }
      ok := SetInnerHtml(Id("hero-description"), MapJoin((d: Value) => DescriptionParagraph(d, lang), descriptions));
    }

    /** The `forEach` over the about descriptions. */
    method RenderAboutDescriptions(descriptions: seq<Value>)
      modifies doc
      ensures doc.page == Apply(old(doc.page), AboutDescriptionWrites(descriptions, old(doc.page).layout.aboutDescriptionCount, currentLang))
      ensures doc.page.layout == old(doc.page).layout
      ensures doc.mainVisible == old(doc.mainVisible)
    {
      ghost var p0 := doc.page;
      var count := doc.page.layout.aboutDescriptionCount;
      var i := 0;
      while i < |descriptions|
        invariant 0 <= i <= |descriptions|
        invariant doc.page == Apply(p0, AboutDescriptionWrites(descriptions[..i], count, currentLang))
        invariant doc.page.layout == p0.layout
        invariant doc.mainVisible == old(doc.mainVisible)
      {
        assert descriptions[..i + 1][..i] == descriptions[..i];
        ghost var before := AboutDescriptionWrites(descriptions[..i], count, currentLang);
        if i < count {
          var w := SetText(Item(AboutDescriptions, i), Localize(descriptions[i], currentLang));
          doc.Put(w);
          ApplyAppend(p0, before, [w]);
        }
        i := i + 1;
      }
      assert descriptions[..i] == descriptions;
    }

    method RenderListMarkup(t: Target, items: Value, f: Value -> Completion<string>) returns (ok: bool)
      modifies doc
      ensures doc.page == Apply(old(doc.page), ListMarkupEffect(old(doc.page).layout, t, items, f).writes)
      ensures ok == ListMarkupEffect(old(doc.page).layout, t, items, f).completed
      ensures doc.page.layout == old(doc.page).layout
      ensures doc.mainVisible == old(doc.mainVisible)
    {
      if t in doc.page.layout.present && Truthy(items) {
        ok := SetInnerHtml(t, MapJoin(f, items));
      } else {
        ok := true;
      }
    }

    /** `renderAbout()`. */
    method RenderAbout() returns (ok: bool)
      modifies doc
      ensures doc.page == Apply(old(doc.page), RenderAboutEffect(old(doc.page).layout, data, currentLang).writes)
      ensures ok == RenderAboutEffect(old(doc.page).layout, data, currentLang).completed
      ensures doc.page.layout == old(doc.page).layout
      ensures doc.mainVisible == old(doc.mainVisible)
    {
      ghost var p0 := doc.page;
      var layout := doc.page.layout;
      if Id("about") !in layout.present || data.None? || !Truthy(data.value.about) {
        return true;
      }
      var about := data.value.about;
      var lang := currentLang;
      ghost var e := AssignText(layout, Within("about", "h2"), Localize(Member(about, "title"), lang));
      AssignElementText(Within("about", "h2"), Localize(Member(about, "title"), lang));

      var descriptions := Member(about, "descriptions");
      ghost var step := AboutDescriptionsEffect(layout, descriptions, lang);
      if Truthy(descriptions) && descriptions.Arr? {
        RenderAboutDescriptions(descriptions.items);
      }
      ApplyThen(p0, e, step);
      e := Then(e, step);

      var statItem := (s: Value) => StatItem(s, lang);
      step := ListMarkupEffect(layout, Within("about", ".flex.flex-wrap.gap-6"), Member(about, "stats"), statItem);
      ok := RenderListMarkup(Within("about", ".flex.flex-wrap.gap-6"), Member(about, "stats"), statItem);
      ApplyThen(p0, e, step);
      e := Then(e, step);
      if !ok {
        return;
      }

      var skillItem := (s: Value) => AboutSkillItem(s, lang);
      step := ListMarkupEffect(layout, Within("about", ".grid.grid-cols-2.gap-4"), Member(about, "skills"), skillItem);
      ok := RenderListMarkup(Within("about", ".grid.grid-cols-2.gap-4"), Member(about, "skills"), skillItem);
      ApplyThen(p0, e, step);
    }

    /** `renderExperience()`. */
    method RenderExperience() returns (ok: bool)
      modifies doc
      ensures doc.page == Apply(old(doc.page), RenderExperienceEffect(old(doc.page).layout, data, currentLang).writes)
      ensures ok == RenderExperienceEffect(old(doc.page).layout, data, currentLang).completed
      ensures doc.page.layout == old(doc.page).layout
      ensures doc.mainVisible == old(doc.mainVisible)
    {
      ghost var p0 := doc.page;
      var layout := doc.page.layout;
      var lang := currentLang;
      ghost var title := UpdateText(layout, Sel("#experience-title"), Str(TranslateText("experience", lang)));
      UpdateElementText(Sel("#experience-title"), Str(TranslateText("experience", lang)));
      if Id("experience-container") !in layout.present || data.None? || !Truthy(data.value.experience) {
        ApplyThen(p0, title, Done);
        return true;
      }
      var cards := MapJoin((x: Value) => CreateExperienceCard(x, lang), data.value.experience);
      ok := SetInnerHtml(Within("experience-container", "#experience-list"), cards);
      ApplyThen(p0, title, HtmlWrite(layout, Within("experience-container", "#experience-list"), cards));
    }

    /** `renderEducation()`. */
    method RenderEducation() returns (ok: bool)
      modifies doc
      ensures doc.page == Apply(old(doc.page), RenderEducationEffect(old(doc.page).layout, data, currentLang).writes)
      ensures ok == RenderEducationEffect(old(doc.page).layout, data, currentLang).completed
      ensures doc.page.layout == old(doc.page).layout
      ensures doc.mainVisible == old(doc.mainVisible)
    {
      ghost var p0 := doc.page;
      var layout := doc.page.layout;
      if Id("education") !in layout.present || data.None? || !Truthy(data.value.education) {
        return true;
      }
      var education := data.value.education;
      var lang := currentLang;
      ghost var e := UpdateText(layout, Sel("#education h2"), Localize(Member(education, "title"), lang));
      UpdateElementText(Sel("#education h2"), Localize(Member(education, "title"), lang));
      ghost var step := UpdateText(layout, Sel("#education p"), Localize(Member(education, "subtitle"), lang));
      UpdateElementText(Sel("#education p"), Localize(Member(education, "subtitle"), lang));
      ApplyThen(p0, e, step);
      e := Then(e, step);
      var items := MapJoin((x: Value) => EducationItem(x, lang), Member(education, "items"));
      ok := SetInnerHtml(Within("education", "#education-list"), items);
      ApplyThen(p0, e, HtmlWrite(layout, Within("education", "#education-list"), items));
    }

    /** `renderLanguages()`. */
    method RenderLanguages() returns (ok: bool)
      modifies doc
      ensures doc.page == Apply(old(doc.page), RenderLanguagesEffect(old(doc.page).layout, data, currentLang).writes)
      ensures ok == RenderLanguagesEffect(old(doc.page).layout, data, currentLang).completed
      ensures doc.page.layout == old(doc.page).layout
      ensures doc.mainVisible == old(doc.mainVisible)
    {
      ghost var p0 := doc.page;
      var layout := doc.page.layout;
      if Id("languages") !in layout.present || data.None? || !Truthy(data.value.languages) {
        return true;
      }
      var languages := data.value.languages;
      var lang := currentLang;
      ghost var e := UpdateText(layout, Sel("#languages h2"), Localize(Member(languages, "title"), lang));
      UpdateElementText(Sel("#languages h2"), Localize(Member(languages, "title"), lang));
      ghost var step := UpdateText(layout, Sel("#languages p"), Localize(Member(languages, "subtitle"), lang));
      UpdateElementText(Sel("#languages p"), Localize(Member(languages, "subtitle"), lang));
      ApplyThen(p0, e, step);
      e := Then(e, step);
      var items := MapJoin((x: Value) => LanguageItem(x, lang), Member(languages, "items"));
      ok := SetInnerHtml(Within("languages", "#languages-list"), items);
      ApplyThen(p0, e, HtmlWrite(layout, Within("languages", "#languages-list"), items));
    }

    /** `renderSkills()`. */
    method RenderSkills() returns (ok: bool)
      modifies doc
      ensures doc.page == Apply(old(doc.page), RenderSkillsEffect(old(doc.page).layout, data, currentLang).writes)
      ensures ok == RenderSkillsEffect(old(doc.page).layout, data, currentLang).completed
      ensures doc.page.layout == old(doc.page).layout
      ensures doc.mainVisible == old(doc.mainVisible)
    {
      ghost var p0 := doc.page;
      var layout := doc.page.layout;
      if Id("skills") !in layout.present || data.None? || !Truthy(data.value.skills) {
        return true;
      }
      var skills := data.value.skills;
      var lang := currentLang;
      ghost var e := UpdateText(layout, Sel("#skills h2"), Localize(Member(skills, "title"), lang));
      UpdateElementText(Sel("#skills h2"), Localize(Member(skills, "title"), lang));
      ok := true;
      if Id("skills-content") in layout.present {
        ok := SetInnerHtml(Id("skills-content"), CreateSkillsHtml(skills, lang));
      }
      ApplyThen(p0, e, SkillsContentEffect(layout, skills, lang));
    }

    /** `renderContact()`. */
    method RenderContact() returns (ok: bool)
      modifies doc
      ensures doc.page == Apply(old(doc.page), RenderContactEffect(old(doc.page).layout, data, currentLang).writes)
      ensures ok == RenderContactEffect(old(doc.page).layout, data, currentLang).completed
      ensures doc.page.layout == old(doc.page).layout
      ensures doc.mainVisible == old(doc.mainVisible)
    {
      ghost var p0 := doc.page;
      var layout := doc.page.layout;
      if Id("contact") !in layout.present || data.None? || !Truthy(data.value.contact) {
        return true;
      }
      var contact := data.value.contact;
      var lang := currentLang;
      ghost var e := UpdateText(layout, Sel("#contact h2"), Localize(Member(contact, "title"), lang));
      UpdateElementText(Sel("#contact h2"), Localize(Member(contact, "title"), lang));
      ghost var step := UpdateText(layout, Sel("#contact p.text-center"), Localize(Member(contact, "subtitle"), lang));
      UpdateElementText(Sel("#contact p.text-center"), Localize(Member(contact, "subtitle"), lang));
      ApplyThen(p0, e, step);
      e := Then(e, step);

      step := ContactCardsEffect(layout, contact, lang);
      if layout.contactCardCount >= 4 {
        var methods := Member(contact, "contactMethods");
        if Nullish(methods) {
          ApplyThen(p0, e, step);
          return false;
        }
        ghost var p1 := doc.page;
        var w0 := ContactCardWrite(methods, 0, lang);
        var w1 := ContactCardWrite(methods, 1, lang);
        var w2 := ContactCardWrite(methods, 2, lang);
        var w3 := ContactCardWrite(methods, 3, lang);
        doc.Put(w0);
        doc.Put(w1);
        ApplyAppend(p1, [w0], [w1]);
        doc.Put(w2);
        ApplyAppend(p1, [w0] + [w1], [w2]);
        doc.Put(w3);
        ApplyAppend(p1, [w0] + [w1] + [w2], [w3]);
        assert [w0] + [w1] + [w2] + [w3] == step.writes;
      }
      ApplyThen(p0, e, step);
      e := Then(e, step);

      step := AssignText(layout, Within("contact", ".group:last-child p"), Localize(Member(contact, "location"), lang));
      AssignElementText(Within("contact", ".group:last-child p"), Localize(Member(contact, "location"), lang));
      ApplyThen(p0, e, step);
      return true;
    }

    /** `renderAll()`: stops at the first render that throws. */
    method RenderAll() returns (ok: bool)
      modifies doc
      ensures doc.page == RenderAllPage(old(doc.page), data, currentLang)
      ensures ok == RenderAllEffect(old(doc.page).layout, data, currentLang).completed
      ensures doc.page.layout == old(doc.page).layout
      ensures doc.mainVisible == old(doc.mainVisible)
    {
      ghost var p0 := doc.page;
      ghost var layout := doc.page.layout;
      ghost var e := RenderNavigationEffect(layout, data, currentLang);
      ok := RenderNavigation();
      if !ok { return; }

      ghost var step := RenderHeroEffect(layout, data, currentLang);
      ok := RenderHero();
      ApplyThen(p0, e, step);
      e := Then(e, step);
      if !ok { return; }

      step := RenderAboutEffect(layout, data, currentLang);
      ok := RenderAbout();
      ApplyThen(p0, e, step);
      e := Then(e, step);
      if !ok { return; }

      step := RenderExperienceEffect(layout, data, currentLang);
      ok := RenderExperience();
      ApplyThen(p0, e, step);
      e := Then(e, step);
      if !ok { return; }

      step := RenderEducationEffect(layout, data, currentLang);
      ok := RenderEducation();
      ApplyThen(p0, e, step);
      e := Then(e, step);
      if !ok { return; }

      step := RenderLanguagesEffect(layout, data, currentLang);
      ok := RenderLanguages();
      ApplyThen(p0, e, step);
      e := Then(e, step);
      if !ok { return; }

      step := RenderSkillsEffect(layout, data, currentLang);
      ok := RenderSkills();
      ApplyThen(p0, e, step);
      e := Then(e, step);
      if !ok { return; }

      step := RenderContactEffect(layout, data, currentLang);
      ok := RenderContact();
      ApplyThen(p0, e, step);
    }

    /** `updateLanguageButton()`. */
    method UpdateLanguageButton()
      modifies doc
      ensures doc.page == Apply(old(doc.page), LanguageButtonsEffect(old(doc.page).layout, currentLang).writes)
      ensures doc.page.layout == old(doc.page).layout
      ensures doc.mainVisible == old(doc.mainVisible)
    {
      ghost var p0 := doc.page;
      ghost var layout := doc.page.layout;
      AssignElementText(Id("language-toggle"), Str(ButtonLabel(currentLang)));
      AssignElementText(Id("language-toggle-mobile"), Str(ButtonLabel(currentLang)));
      ApplyThen(p0, AssignText(layout, Id("language-toggle"), Str(ButtonLabel(currentLang))),
                AssignText(layout, Id("language-toggle-mobile"), Str(ButtonLabel(currentLang))));
    }

    /**
      `toggleLanguage()`: switches to the other language, relabels the
      buttons and renders everything again; a throw in `renderAll` is
      reported, not caught.
    */
    method ToggleLanguage() returns (ok: bool)
      modifies this, doc
      ensures currentLang == Toggled(old(currentLang))
      ensures data == old(data)
      ensures doc.page == RenderAllPage(Apply(old(doc.page), LanguageButtonsEffect(old(doc.page).layout, currentLang).writes),
                                        data, currentLang)
      ensures ok == RenderAllEffect(old(doc.page).layout, data, currentLang).completed
      ensures doc.mainVisible == old(doc.mainVisible)
    {
      ghost var p0 := doc.page;
      currentLang := Toggled(currentLang);
      ghost var lang := currentLang;
      UpdateLanguageButton();
      ghost var relabelled := doc.page;
      assert relabelled == Apply(p0, LanguageButtonsEffect(p0.layout, lang).writes);
      ok := RenderAll();
      assert doc.page == RenderAllPage(relabelled, data, lang);
    }

    /** `showError(containerId, componentName)`: throws when the container is missing. */
    method ShowError(containerId: string, componentName: string) returns (ok: bool)
      modifies doc
      ensures ok <==> Id(containerId) in old(doc.page).layout.present
      ensures ok ==> doc.page == Apply(old(doc.page), [Put(Single(Id(containerId)), Html(ErrorMarkup(componentName)))])
      ensures !ok ==> doc.page == old(doc.page)
      ensures doc.mainVisible == old(doc.mainVisible)
    {
      if Id(containerId) !in doc.page.layout.present {
        return false;
      }
      doc.Put(Put(Single(Id(containerId)), Html(ErrorMarkup(componentName))));
      return true;
    }

    /** `loadComponents()`: throws when some container is missing, after writing all the others. */
    method LoadComponents(fetchText: string -> Fetched<string>) returns (ok: bool)
      modifies doc
      ensures doc.page == Apply(old(doc.page), LoadComponentsEffect(old(doc.page).layout, fetchText, |Components|).writes)
      ensures ok == LoadComponentsEffect(old(doc.page).layout, fetchText, |Components|).completed
      ensures doc.page.layout == old(doc.page).layout
      ensures doc.mainVisible == old(doc.mainVisible)
    {
      ghost var p0 := doc.page;
      var layout := doc.page.layout;
      ok := true;
      var i := 0;
      while i < |Components|
        invariant 0 <= i <= |Components|
        invariant doc.page == Apply(p0, LoadComponentsEffect(layout, fetchText, i).writes)
        invariant ok == LoadComponentsEffect(layout, fetchText, i).completed
        invariant doc.page.layout == layout
        invariant doc.mainVisible == old(doc.mainVisible)
      {
        var (containerId, name) := Components[i];
        ghost var before := LoadComponentsEffect(layout, fetchText, i).writes;
        var fetched := fetchText(ComponentUrl(name));
        ghost var cell := ComponentCell(name, fetched);
        assert LoadComponentsEffect(layout, fetchText, i + 1)
            == if Id(containerId) in layout.present then Effect(before + [Put(Single(Id(containerId)), cell)], ok)
               else Effect(before, false);
        if fetched.Ok? && Id(containerId) in layout.present {
          doc.Put(Put(Single(Id(containerId)), Html(fetched.body)));
          ApplyAppend(p0, before, [Put(Single(Id(containerId)), Html(fetched.body))]);
        } else {
          var shown := ShowError(containerId, name);
          if shown {
            ApplyAppend(p0, before, [Put(Single(Id(containerId)), Html(ErrorMarkup(name)))]);
          } else {
            ok := false;
          }
        }
        i := i + 1;
      }
    }

    /**
      `loadData()`: when every document loads, stores them and renders the
      page; otherwise nothing changes. A throw in `renderAll` is caught here.
    */
    method LoadData(fetchJson: string -> Fetched<Value>)
      modifies this, doc
      ensures currentLang == old(currentLang)
      ensures Assemble(fetchJson).None? ==> data == old(data) && doc.page == old(doc.page)
      ensures Assemble(fetchJson).Some? ==> data == Assemble(fetchJson) && doc.page == RenderAllPage(old(doc.page), data, currentLang)
      ensures doc.mainVisible == old(doc.mainVisible)
    {
      var bundle := Assemble(fetchJson);
      if bundle.Some? {
        data := bundle;
        ghost var lang := currentLang;
        ghost var p0 := doc.page;
        var _ := RenderAll();
        assert doc.page == RenderAllPage(p0, bundle, lang);
      }
    }

    /**
      `init()`: hides the main content, loads the fragments, loads the
      content only if every fragment found its container, and shows the
      main content again in every case.
    */
    method Init(fetchText: string -> Fetched<string>, fetchJson: string -> Fetched<Value>)
      modifies this, doc
      ensures doc.mainVisible
      ensures currentLang == old(currentLang)
      ensures var components := LoadComponentsEffect(old(doc.page).layout, fetchText, |Components|);
              var loaded := Apply(old(doc.page), components.writes);
              if components.completed && Assemble(fetchJson).Some?
              then data == Assemble(fetchJson) && doc.page == RenderAllPage(loaded, data, currentLang)
              else data == old(data) && doc.page == loaded
    {
      doc.SetMainVisible(false);
      var ok := LoadComponents(fetchText);
      if ok {
        LoadData(fetchJson);
      }
      doc.SetMainVisible(true);
    }
  }
}
