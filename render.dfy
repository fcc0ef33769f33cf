/**
  The render functions of `PortfolioApp` (js/script.js:303-624) as effects:
  each takes the page layout, the loaded content documents (`this.data`,
  absent until every document has loaded) and the current language, and
  yields the writes the render performs, in order, and whether it returns
  normally or throws. A throw stops the render where it happens, and within
  `renderAll` it stops all later renders too.
*/
module Render {
  import opened Json
  import opened Localization
  import opened Markup
  import opened Dom

  /** `this.data`: the eight content documents, by the names `loadData` gives them. */
  datatype Bundle = Bundle(
    hero: Value, about: Value, experience: Value, education: Value,
    languages: Value, skills: Value, navigation: Value, contact: Value)

  /** What running part of a render did: the writes performed, and whether it ended without throwing. */
  datatype Effect = Effect(writes: seq<Write>, completed: bool)

  const Done: Effect := Effect([], true)
  const Abort: Effect := Effect([], false)

  /** Running `a` and then, unless `a` threw, `b`. */
  function Then(a: Effect, b: Effect): (r: Effect)
    ensures r.completed <==> a.completed && b.completed
    ensures !a.completed ==> r == a
    ensures a.completed ==> Written(r.writes) == Written(a.writes) + Written(b.writes)
    ensures Written(r.writes).Keys <= Written(a.writes).Keys + Written(b.writes).Keys
  {
    if !a.completed then a
    else
      WrittenAppend(a.writes, b.writes);
      Effect(a.writes + b.writes, b.completed)
  }

  /** The page a completed step followed by another leaves is the page their sequence leaves. */
  lemma ApplyThen(p: Page, a: Effect, b: Effect)
    requires a.completed
    ensures Apply(Apply(p, a.writes), b.writes) == Apply(p, Then(a, b).writes)
  {
    ApplyAppend(p, a.writes, b.writes);
  }

  /** After `e`, key `k` holds `c`. */
  predicate Holds(e: Effect, k: Key, c: Cell) {
    k in Written(e.writes) && Written(e.writes)[k] == c
  }

  /**
    What `updateElementText` leaves: `t` is written exactly when it exists
    and the text is truthy, and then holds that text.
  */
  predicate TextShown(e: Effect, layout: Layout, t: Target, text: Value) {
    (Single(t) in Written(e.writes) <==> t in layout.present && Truthy(text))
    && (Single(t) in Written(e.writes) ==> Written(e.writes)[Single(t)] == Text(TextContentOf(text)))
  }

  /** What `if (el) el.textContent = text` leaves: `t` holds the text exactly when it exists. */
  predicate TextAssigned(e: Effect, layout: Layout, t: Target, text: Value) {
    (Single(t) in Written(e.writes) <==> t in layout.present)
    && (Single(t) in Written(e.writes) ==> Written(e.writes)[Single(t)] == Text(TextContentOf(text)))
  }

  /** What setting `innerHTML` leaves: `t` holds the markup exactly when it exists and the markup was built. */
  predicate HtmlShown(e: Effect, layout: Layout, t: Target, markup: Completion<string>) {
    (Single(t) in Written(e.writes) <==> t in layout.present && markup.Normal?)
    && (Single(t) in Written(e.writes) ==> markup.Normal? && Written(e.writes)[Single(t)] == Html(markup.value))
  }

  function SetText(k: Key, text: Value): Write {
    Put(k, Text(TextContentOf(text)))
  }

  /** On the keys `ks`, `e` leaves exactly what `part` leaves. */
  predicate AgreesOn(e: Effect, part: Effect, ks: set<Key>) {
    forall k | k in ks :: (k in Written(e.writes) <==> k in Written(part.writes))
                          && (k in Written(part.writes) ==> Written(e.writes)[k] == Written(part.writes)[k])
  }

  /** Two steps that write disjoint keys: each keeps its own keys in the combined effect. */
  lemma ThenSplit(a: Effect, b: Effect, ka: set<Key>, kb: set<Key>)
    requires a.completed
    requires Written(a.writes).Keys <= ka && Written(b.writes).Keys <= kb && ka !! kb
    ensures AgreesOn(Then(a, b), a, ka) && AgreesOn(Then(a, b), b, kb)
    ensures Written(Then(a, b).writes).Keys <= ka + kb
  {
  }

  lemma AgreesOnTrans(x: Effect, y: Effect, z: Effect, ks: set<Key>, wider: set<Key>)
    requires AgreesOn(x, y, wider) && AgreesOn(y, z, ks) && ks <= wider
    ensures AgreesOn(x, z, ks)
  {
  }

  /** Three completed steps on disjoint keys. */
  lemma Chain3(e1: Effect, e2: Effect, e3: Effect, k1: set<Key>, k2: set<Key>, k3: set<Key>)
    requires e1.completed && e2.completed
    requires Written(e1.writes).Keys <= k1 && Written(e2.writes).Keys <= k2 && Written(e3.writes).Keys <= k3
    requires k1 !! k2 && k1 !! k3 && k2 !! k3
    ensures var e := Then(Then(e1, e2), e3);
            AgreesOn(e, e1, k1) && AgreesOn(e, e2, k2) && AgreesOn(e, e3, k3) && Written(e.writes).Keys <= k1 + k2 + k3
  {
    ThenSplit(e1, e2, k1, k2);
    ThenSplit(Then(e1, e2), e3, k1 + k2, k3);
    AgreesOnTrans(Then(Then(e1, e2), e3), Then(e1, e2), e1, k1, k1 + k2);
    AgreesOnTrans(Then(Then(e1, e2), e3), Then(e1, e2), e2, k2, k1 + k2);
  }

  /** Four completed steps on disjoint keys. */
  lemma Chain4(e1: Effect, e2: Effect, e3: Effect, e4: Effect, k1: set<Key>, k2: set<Key>, k3: set<Key>, k4: set<Key>)
    requires e1.completed && e2.completed && e3.completed
    requires Written(e1.writes).Keys <= k1 && Written(e2.writes).Keys <= k2
    requires Written(e3.writes).Keys <= k3 && Written(e4.writes).Keys <= k4
    requires k1 !! k2 && k1 !! k3 && k1 !! k4 && k2 !! k3 && k2 !! k4 && k3 !! k4
    ensures var e := Then(Then(Then(e1, e2), e3), e4);
            AgreesOn(e, e1, k1) && AgreesOn(e, e2, k2) && AgreesOn(e, e3, k3) && AgreesOn(e, e4, k4)
            && Written(e.writes).Keys <= k1 + k2 + k3 + k4
  {
    var front := Then(Then(e1, e2), e3);
    Chain3(e1, e2, e3, k1, k2, k3);
    ThenSplit(front, e4, k1 + k2 + k3, k4);
    AgreesOnTrans(Then(front, e4), front, e1, k1, k1 + k2 + k3);
    AgreesOnTrans(Then(front, e4), front, e2, k2, k1 + k2 + k3);
    AgreesOnTrans(Then(front, e4), front, e3, k3, k1 + k2 + k3);
  }

  /** Five completed steps on disjoint keys. */
  lemma Chain5(e1: Effect, e2: Effect, e3: Effect, e4: Effect, e5: Effect,
               k1: set<Key>, k2: set<Key>, k3: set<Key>, k4: set<Key>, k5: set<Key>)
    requires e1.completed && e2.completed && e3.completed && e4.completed
    requires Written(e1.writes).Keys <= k1 && Written(e2.writes).Keys <= k2 && Written(e3.writes).Keys <= k3
    requires Written(e4.writes).Keys <= k4 && Written(e5.writes).Keys <= k5
    requires k1 !! k2 && k1 !! k3 && k1 !! k4 && k1 !! k5 && k2 !! k3 && k2 !! k4 && k2 !! k5
    requires k3 !! k4 && k3 !! k5 && k4 !! k5
    ensures var e := Then(Then(Then(Then(e1, e2), e3), e4), e5);
            AgreesOn(e, e1, k1) && AgreesOn(e, e2, k2) && AgreesOn(e, e3, k3) && AgreesOn(e, e4, k4) && AgreesOn(e, e5, k5)
            && Written(e.writes).Keys <= k1 + k2 + k3 + k4 + k5
  {
    var front := Then(Then(Then(e1, e2), e3), e4);
    Chain4(e1, e2, e3, e4, k1, k2, k3, k4);
    ThenSplit(front, e5, k1 + k2 + k3 + k4, k5);
    AgreesOnTrans(Then(front, e5), front, e1, k1, k1 + k2 + k3 + k4);
    AgreesOnTrans(Then(front, e5), front, e2, k2, k1 + k2 + k3 + k4);
    AgreesOnTrans(Then(front, e5), front, e3, k3, k1 + k2 + k3 + k4);
    AgreesOnTrans(Then(front, e5), front, e4, k4, k1 + k2 + k3 + k4);
  }

  /** Five steps in sequence write no key that none of them writes. */
  lemma Keys5(e1: Effect, e2: Effect, e3: Effect, e4: Effect, e5: Effect)
    ensures Written(Then(Then(Then(Then(e1, e2), e3), e4), e5).writes).Keys
         <= Written(e1.writes).Keys + Written(e2.writes).Keys + Written(e3.writes).Keys
            + Written(e4.writes).Keys + Written(e5.writes).Keys
  {
  }

  lemma WithinFive(ks: set<Key>, s1: set<Key>, s2: set<Key>, s3: set<Key>, s4: set<Key>, s5: set<Key>,
                   k1: Key, k2: Key, k3: Key, k4: Key, k5: Key)
    requires ks <= s1 + s2 + s3 + s4 + s5
    requires s1 <= {k1} && s2 <= {k2} && s3 <= {k3} && s4 <= {k4} && s5 <= {k5}
    ensures ks <= {k1, k2, k3, k4, k5}
  {
  }

  /** A single write. */
  function Single1(w: Write): (e: Effect)
    ensures e.completed
    ensures Written(e.writes) == map[w.key := w.cell]
  {
    assert [w][..0] == [];
    Effect([w], true)
  }

  /** `updateElementText(selector, text)`: writes only into an existing element, and only a truthy text. */
  function UpdateText(layout: Layout, t: Target, text: Value): (e: Effect)
    ensures e.completed
    ensures Written(e.writes).Keys == if t in layout.present && Truthy(text) then {Single(t)} else {}
    ensures t in layout.present && Truthy(text) ==> Written(e.writes)[Single(t)] == Text(TextContentOf(text))
    ensures TextShown(e, layout, t, text)
  {
    if t in layout.present && Truthy(text) then Single1(SetText(Single(t), text)) else Done
  }

  /** `if (el) el.textContent = text`: any text, falsy ones included. */
  function AssignText(layout: Layout, t: Target, text: Value): (e: Effect)
    ensures e.completed
    ensures Written(e.writes).Keys == if t in layout.present then {Single(t)} else {}
    ensures t in layout.present ==> Written(e.writes)[Single(t)] == Text(TextContentOf(text))
    ensures TextAssigned(e, layout, t, text)
  {
    if t in layout.present then Single1(SetText(Single(t), text)) else Done
  }

  /** Setting `innerHTML` of an existing element to markup that may have thrown while being built. */
  function HtmlWrite(layout: Layout, t: Target, markup: Completion<string>): (e: Effect)
    ensures e.completed <==> markup.Normal?
    ensures Written(e.writes).Keys == if markup.Normal? && t in layout.present then {Single(t)} else {}
    ensures markup.Normal? && t in layout.present ==> Written(e.writes)[Single(t)] == Html(markup.value)
    ensures HtmlShown(e, layout, t, markup)
  {
    if markup.Thrown? then Abort
    else if t in layout.present then Single1(Put(Single(t), Html(markup.value)))
    else Done
  }

  /** What a step leaves in its element survives in an effect that agrees with it there. */
  lemma TextShownTransfer(e: Effect, part: Effect, layout: Layout, t: Target, text: Value)
    requires TextShown(part, layout, t, text) && AgreesOn(e, part, {Single(t)})
    ensures TextShown(e, layout, t, text)
  {
    assert Single(t) in {Single(t)};
  }

  lemma TextAssignedTransfer(e: Effect, part: Effect, layout: Layout, t: Target, text: Value)
    requires TextAssigned(part, layout, t, text) && AgreesOn(e, part, {Single(t)})
    ensures TextAssigned(e, layout, t, text)
  {
    assert Single(t) in {Single(t)};
  }

  lemma HtmlShownTransfer(e: Effect, part: Effect, layout: Layout, t: Target, markup: Completion<string>)
    requires HtmlShown(part, layout, t, markup) && AgreesOn(e, part, {Single(t)})
    ensures HtmlShown(e, layout, t, markup)
  {
    assert Single(t) in {Single(t)};
  }

  /** `v.map(f).join('')`: `map` exists only on arrays, and any item that throws aborts it. */
  function MapJoin(f: Value -> Completion<string>, v: Value): (r: Completion<string>)
    ensures r.Thrown? <==> !v.Arr? || exists i :: 0 <= i < |v.items| && f(v.items[i]).Thrown?
  {
    match Elements(v)
    case Thrown => Thrown
    case Normal(items) => ConcatMapOrThrow(f, items)
  }

  /** On success, the markup of every array item occurs in the joined markup. */
  lemma MapJoinShowsEach(f: Value -> Completion<string>, v: Value, i: nat)
    requires MapJoin(f, v).Normal?
    requires v.Arr? && i < |v.items|
    ensures f(v.items[i]).Normal? && Contains(MapJoin(f, v).value, f(v.items[i]).value)
  {
    ConcatMapOrThrowShowsEach(f, v.items, i);
  }

  /** Two item builders that throw on the same items make `map` throw on the same arrays. */
  lemma MapJoinThrowsAlike(f: Value -> Completion<string>, g: Value -> Completion<string>, v: Value)
    requires forall x :: f(x).Thrown? == g(x).Thrown?
    ensures MapJoin(f, v).Thrown? == MapJoin(g, v).Thrown?
  {
    if v.Arr? {
      assert (exists i :: 0 <= i < |v.items| && f(v.items[i]).Thrown?)
          == (exists i :: 0 <= i < |v.items| && g(v.items[i]).Thrown?);
    }
  }

  // ----- renderNavigation (js/script.js:443-467) -----

  function NavList(desktop: bool): ListName {
    if desktop then NavLinks else MobileNavLinks
  }

  /** `link.getAttribute('href').replace('#', '')`. */
  function Section(href: string): string {
    RemoveFirst(href, '#')
  }

  /** What a navigation link gets: desktop links also get a delay of 100 ms per position. */
  function NavCell(desktop: bool, index: nat, entry: Value, lang: Lang): Cell {
    if desktop then Animated(TextContentOf(Localize(entry, lang)), NatToString(index * 100) + "ms")
    else Text(TextContentOf(Localize(entry, lang)))
  }

  predicate HrefsPresent(hrefs: seq<Option<string>>) {
    forall j :: 0 <= j < |hrefs| ==> hrefs[j].Some?
  }

  lemma HrefsPresentSnoc(hrefs: seq<Option<string>>)
    requires |hrefs| > 0
    ensures HrefsPresent(hrefs) <==> HrefsPresent(hrefs[..|hrefs| - 1]) && hrefs[|hrefs| - 1].Some?
  {
    var i := |hrefs| - 1;
    assert forall j | 0 <= j < i :: hrefs[..i][j] == hrefs[j];
  }

  /** Whether link `j` of a list gets written: its section has a truthy navigation entry. */
  predicate NavShown(hrefs: seq<Option<string>>, nav: Value, j: nat)
    requires j < |hrefs| && hrefs[j].Some?
  {
    Truthy(Member(nav, Section(hrefs[j].value)))
  }

  /**
    The `forEach` over one list of navigation links. It throws at the first
    link without an `href`. When it completes, exactly the links whose
    section has a truthy entry in the navigation document are written, each
    with that entry's localized text.
  */
  function NavLinksEffect(hrefs: seq<Option<string>>, nav: Value, lang: Lang, desktop: bool): (e: Effect)
    ensures e.completed <==> HrefsPresent(hrefs)
    decreases |hrefs|
  {
    if |hrefs| == 0 then Done
    else
      var i := |hrefs| - 1;
      var prefix := NavLinksEffect(hrefs[..i], nav, lang, desktop);
      HrefsPresentSnoc(hrefs);
      if !prefix.completed || hrefs[i].None? then Effect(prefix.writes, false)
      else
        var entry := Member(nav, Section(hrefs[i].value));
        if !Truthy(entry) then prefix
        else Effect(prefix.writes + [Put(Item(NavList(desktop), i), NavCell(desktop, i, entry, lang))], true)
  }

  /** A navigation `forEach` writes only links of its own list. */
  lemma {:induction false} NavLinksKeys(hrefs: seq<Option<string>>, nav: Value, lang: Lang, desktop: bool)
    ensures forall k | k in Written(NavLinksEffect(hrefs, nav, lang, desktop).writes) ::
              k.Item? && k.list == NavList(desktop) && k.index < |hrefs|
    decreases |hrefs|
  {
    if |hrefs| > 0 {
      var i := |hrefs| - 1;
      NavLinksKeys(hrefs[..i], nav, lang, desktop);
      var prefix := NavLinksEffect(hrefs[..i], nav, lang, desktop);
      if prefix.completed && hrefs[i].Some? && Truthy(Member(nav, Section(hrefs[i].value))) {
        WrittenSnoc(prefix.writes, Put(Item(NavList(desktop), i), NavCell(desktop, i, Member(nav, Section(hrefs[i].value)), lang)));
      }
    }
  }

  /** When a navigation `forEach` completes, it writes exactly the links whose section has a truthy entry. */
  lemma {:induction false} NavLinksShown(hrefs: seq<Option<string>>, nav: Value, lang: Lang, desktop: bool)
    ensures var e := NavLinksEffect(hrefs, nav, lang, desktop);
            e.completed ==> forall j | 0 <= j < |hrefs| :: Item(NavList(desktop), j) in Written(e.writes) <==> NavShown(hrefs, nav, j)
    decreases |hrefs|
  {
    if |hrefs| > 0 {
      var i := |hrefs| - 1;
      var init := hrefs[..i];
      NavLinksShown(init, nav, lang, desktop);
      NavLinksKeys(init, nav, lang, desktop);
      var prefix := NavLinksEffect(init, nav, lang, desktop);
      var e := NavLinksEffect(hrefs, nav, lang, desktop);
      HrefsPresentSnoc(hrefs);
      if prefix.completed && hrefs[i].Some? {
        var entry := Member(nav, Section(hrefs[i].value));
        var key := Item(NavList(desktop), i);
        if Truthy(entry) {
          WrittenSnoc(prefix.writes, Put(key, NavCell(desktop, i, entry, lang)));
        }
        assert key !in Written(prefix.writes);
        forall j | 0 <= j < |hrefs|
          ensures Item(NavList(desktop), j) in Written(e.writes) <==> NavShown(hrefs, nav, j)
        {
          if j < i {
            assert hrefs[j] == init[j];
            assert Item(NavList(desktop), j) in Written(prefix.writes) <==> NavShown(init, nav, j);
          } else {
            assert j == i;
          }
        }
      }
    }
  }

  /** Each link a completed navigation `forEach` writes gets its entry's localized text, and on desktop its delay. */
  lemma {:induction false} NavLinksCells(hrefs: seq<Option<string>>, nav: Value, lang: Lang, desktop: bool)
    ensures var e := NavLinksEffect(hrefs, nav, lang, desktop);
            e.completed ==> forall j | 0 <= j < |hrefs| && NavShown(hrefs, nav, j) && Item(NavList(desktop), j) in Written(e.writes) ::
              Written(e.writes)[Item(NavList(desktop), j)] == NavCell(desktop, j, Member(nav, Section(hrefs[j].value)), lang)
    decreases |hrefs|
  {
    if |hrefs| > 0 {
      var i := |hrefs| - 1;
      var init := hrefs[..i];
      NavLinksCells(init, nav, lang, desktop);
      var prefix := NavLinksEffect(init, nav, lang, desktop);
      var e := NavLinksEffect(hrefs, nav, lang, desktop);
      HrefsPresentSnoc(hrefs);
      if prefix.completed && hrefs[i].Some? {
        var entry := Member(nav, Section(hrefs[i].value));
        var key := Item(NavList(desktop), i);
        if Truthy(entry) {
          WrittenSnoc(prefix.writes, Put(key, NavCell(desktop, i, entry, lang)));
        }
        forall j | 0 <= j < |hrefs| && NavShown(hrefs, nav, j) && Item(NavList(desktop), j) in Written(e.writes)
          ensures Written(e.writes)[Item(NavList(desktop), j)] == NavCell(desktop, j, Member(nav, Section(hrefs[j].value)), lang)
        {
          if j < i {
            assert hrefs[j] == init[j];
            assert Item(NavList(desktop), j) != key;
          } else {
            assert j == i;
          }
        }
      }
    }
  }

  /** `renderNavigation()`: both link lists, from the navigation document. */
  function RenderNavigationEffect(layout: Layout, data: Option<Bundle>, lang: Lang): (e: Effect)
    ensures data.None? || !Truthy(data.value.navigation) ==> e == Done
    ensures e.completed <==> data.None? || !Truthy(data.value.navigation)
                             || (HrefsPresent(layout.navHrefs) && HrefsPresent(layout.mobileHrefs))
  {
    if data.None? || !Truthy(data.value.navigation) then Done
    else
      var nav := data.value.navigation;
      Then(NavLinksEffect(layout.navHrefs, nav, lang, true), NavLinksEffect(layout.mobileHrefs, nav, lang, false))
  }

  function NavHrefs(layout: Layout, desktop: bool): seq<Option<string>> {
    if desktop then layout.navHrefs else layout.mobileHrefs
  }

  /** The keys of one list of navigation links. */
  function NavKeySet(count: nat, desktop: bool): set<Key> {
    set j | 0 <= j < count :: Item(NavList(desktop), j)
  }

  lemma NavLinksWithin(hrefs: seq<Option<string>>, nav: Value, lang: Lang, desktop: bool)
    ensures Written(NavLinksEffect(hrefs, nav, lang, desktop).writes).Keys <= NavKeySet(|hrefs|, desktop)
  {
    NavLinksKeys(hrefs, nav, lang, desktop);
    forall k | k in Written(NavLinksEffect(hrefs, nav, lang, desktop).writes)
      ensures k in NavKeySet(|hrefs|, desktop)
    {
      assert k == Item(NavList(desktop), k.index);
    }
  }

  /**
    A navigation render over a truthy navigation document that completes
    writes each list as its own `forEach` does, and nothing else.
  */
  lemma NavigationSplit(layout: Layout, data: Option<Bundle>, lang: Lang)
    requires data.Some? && Truthy(data.value.navigation)
    requires RenderNavigationEffect(layout, data, lang).completed
    ensures var e, nav := RenderNavigationEffect(layout, data, lang), data.value.navigation;
            AgreesOn(e, NavLinksEffect(layout.navHrefs, nav, lang, true), NavKeySet(|layout.navHrefs|, true))
            && AgreesOn(e, NavLinksEffect(layout.mobileHrefs, nav, lang, false), NavKeySet(|layout.mobileHrefs|, false))
            && Written(e.writes).Keys <= NavKeySet(|layout.navHrefs|, true) + NavKeySet(|layout.mobileHrefs|, false)
  {
    var nav := data.value.navigation;
    NavLinksWithin(layout.navHrefs, nav, lang, true);
    NavLinksWithin(layout.mobileHrefs, nav, lang, false);
    ThenSplit(NavLinksEffect(layout.navHrefs, nav, lang, true), NavLinksEffect(layout.mobileHrefs, nav, lang, false),
              NavKeySet(|layout.navHrefs|, true), NavKeySet(|layout.mobileHrefs|, false));
  }

  /**
    After a completed navigation render over a truthy navigation document,
    link j of either list is written exactly when its section has a truthy
    entry, and then holds that entry's localized text (with the delay on
    desktop).
  */
  lemma NavigationShown(layout: Layout, data: Option<Bundle>, lang: Lang, desktop: bool, j: nat)
    requires data.Some? && Truthy(data.value.navigation)
    requires RenderNavigationEffect(layout, data, lang).completed
    requires j < |NavHrefs(layout, desktop)|
    ensures NavHrefs(layout, desktop)[j].Some?
    ensures var e, nav, hrefs := RenderNavigationEffect(layout, data, lang), data.value.navigation, NavHrefs(layout, desktop);
            (Item(NavList(desktop), j) in Written(e.writes) <==> NavShown(hrefs, nav, j))
            && (NavShown(hrefs, nav, j) ==>
                  Written(e.writes)[Item(NavList(desktop), j)] == NavCell(desktop, j, Member(nav, Section(hrefs[j].value)), lang))
  {
    var nav, hrefs := data.value.navigation, NavHrefs(layout, desktop);
    NavigationSplit(layout, data, lang);
    NavLinksShown(hrefs, nav, lang, desktop);
    NavLinksCells(hrefs, nav, lang, desktop);
    assert Item(NavList(desktop), j) in NavKeySet(|hrefs|, desktop);
  }

  // ----- renderHero (js/script.js:314-336) -----

  /** `descriptions.map(...).join('')` for the hero paragraphs: it throws exactly when `descriptions` is no array. */
  function HeroDescriptionsMarkup(descriptions: Value, lang: Lang): (r: Completion<string>)
    ensures r.Thrown? <==> !descriptions.Arr?
  {
    match Elements(descriptions)
    case Thrown => Thrown
    case Normal(items) => Normal(ConcatMap((d: Value) => HeroParagraph(Localize(d, lang)), items))
  }

  /** Every hero description becomes a paragraph of the markup, holding its localized text. */
  lemma HeroDescriptionsShowEach(descriptions: Value, lang: Lang, i: nat)
    requires descriptions.Arr? && i < |descriptions.items|
    ensures Contains(HeroDescriptionsMarkup(descriptions, lang).value, HeroParagraph(Localize(descriptions.items[i], lang)))
    ensures Contains(HeroDescriptionsMarkup(descriptions, lang).value, ToStr(Localize(descriptions.items[i], lang)))
  {
    var markup := HeroDescriptionsMarkup(descriptions, lang).value;
    ConcatMapShowsEach((d: Value) => HeroParagraph(Localize(d, lang)), descriptions.items, i);
    ContainsTrans(markup, HeroParagraph(Localize(descriptions.items[i], lang)), ToStr(Localize(descriptions.items[i], lang)));
  }

  function HeroDescriptionsEffect(layout: Layout, descriptions: Value, lang: Lang): Effect {
    if Id("hero-description") in layout.present && Truthy(descriptions) then
      HtmlWrite(layout, Id("hero-description"), HeroDescriptionsMarkup(descriptions, lang))
    else Done
  }

  /**
    `renderHero()`: it renders nothing unless both the hero and the about
    documents are loaded and truthy; it throws only when the description
    container exists and `descriptions` is truthy but not an array.
  */
  function RenderHeroEffect(layout: Layout, data: Option<Bundle>, lang: Lang): (e: Effect)
    ensures data.None? || !Truthy(data.value.hero) || !Truthy(data.value.about) ==> e == Done
    ensures !e.completed <==> data.Some? && Truthy(data.value.hero) && Truthy(data.value.about)
                              && Id("hero-description") in layout.present
                              && Truthy(Member(data.value.hero, "descriptions"))
                              && !Member(data.value.hero, "descriptions").Arr?
  {
    if data.None? || !Truthy(data.value.hero) || !Truthy(data.value.about) then Done
    else
      var hero := data.value.hero;
      Then(Then(Then(Then(
        UpdateText(layout, Sel("#name"), Localize(Member(hero, "name"), lang)),
        UpdateText(layout, Sel("#role"), Localize(Member(hero, "role"), lang))),
        HeroDescriptionsEffect(layout, Member(hero, "descriptions"), lang)),
        UpdateText(layout, Sel("#contact-btn"), Localize(Member(Member(hero, "buttons"), "contact"), lang))),
        UpdateText(layout, Sel("#about-btn"), Localize(Member(Member(hero, "buttons"), "about"), lang)))
  }

  /**
    A hero render that completes sets the name, the role and both button
    labels where the elements exist and the texts are truthy, fills the
    description container with the paragraphs, and writes nothing else.
  */
  lemma HeroWrites(layout: Layout, data: Option<Bundle>, lang: Lang)
    requires data.Some? && Truthy(data.value.hero) && Truthy(data.value.about)
    requires RenderHeroEffect(layout, data, lang).completed
    ensures var e, hero := RenderHeroEffect(layout, data, lang), data.value.hero;
            TextShown(e, layout, Sel("#name"), Localize(Member(hero, "name"), lang))
            && TextShown(e, layout, Sel("#role"), Localize(Member(hero, "role"), lang))
            && TextShown(e, layout, Sel("#contact-btn"), Localize(Member(Member(hero, "buttons"), "contact"), lang))
            && TextShown(e, layout, Sel("#about-btn"), Localize(Member(Member(hero, "buttons"), "about"), lang))
    ensures var e, hero := RenderHeroEffect(layout, data, lang), data.value.hero;
            Truthy(Member(hero, "descriptions")) ==>
              HtmlShown(e, layout, Id("hero-description"), HeroDescriptionsMarkup(Member(hero, "descriptions"), lang))
  {
    var hero := data.value.hero;
    var descriptions := Member(hero, "descriptions");
    var e1 := UpdateText(layout, Sel("#name"), Localize(Member(hero, "name"), lang));
    var e2 := UpdateText(layout, Sel("#role"), Localize(Member(hero, "role"), lang));
    var e3 := HeroDescriptionsEffect(layout, descriptions, lang);
    var e4 := UpdateText(layout, Sel("#contact-btn"), Localize(Member(Member(hero, "buttons"), "contact"), lang));
    var e5 := UpdateText(layout, Sel("#about-btn"), Localize(Member(Member(hero, "buttons"), "about"), lang));
    var e := RenderHeroEffect(layout, data, lang);
    assert e == Then(Then(Then(Then(e1, e2), e3), e4), e5);
    var k1, k2, k3, k4, k5 := Single(Sel("#name")), Single(Sel("#role")), Single(Id("hero-description")),
                              Single(Sel("#contact-btn")), Single(Sel("#about-btn"));
    Chain5(e1, e2, e3, e4, e5, {k1}, {k2}, {k3}, {k4}, {k5});
    TextShownTransfer(e, e1, layout, Sel("#name"), Localize(Member(hero, "name"), lang));
    TextShownTransfer(e, e2, layout, Sel("#role"), Localize(Member(hero, "role"), lang));
    TextShownTransfer(e, e4, layout, Sel("#contact-btn"), Localize(Member(Member(hero, "buttons"), "contact"), lang));
    TextShownTransfer(e, e5, layout, Sel("#about-btn"), Localize(Member(Member(hero, "buttons"), "about"), lang));
    if Truthy(descriptions) {
      HtmlShownTransfer(e, e3, layout, Id("hero-description"), HeroDescriptionsMarkup(descriptions, lang));
    }
  }

  /** The hero render writes only the name, the role, the descriptions and the two buttons. */
  lemma HeroKeys(layout: Layout, data: Option<Bundle>, lang: Lang)
    ensures Written(RenderHeroEffect(layout, data, lang).writes).Keys
         <= {Single(Sel("#name")), Single(Sel("#role")), Single(Id("hero-description")),
             Single(Sel("#contact-btn")), Single(Sel("#about-btn"))}
  {
    if data.Some? && Truthy(data.value.hero) && Truthy(data.value.about) {
      var hero := data.value.hero;
      var e1 := UpdateText(layout, Sel("#name"), Localize(Member(hero, "name"), lang));
      var e2 := UpdateText(layout, Sel("#role"), Localize(Member(hero, "role"), lang));
      var e3 := HeroDescriptionsEffect(layout, Member(hero, "descriptions"), lang);
      var e4 := UpdateText(layout, Sel("#contact-btn"), Localize(Member(Member(hero, "buttons"), "contact"), lang));
      var e5 := UpdateText(layout, Sel("#about-btn"), Localize(Member(Member(hero, "buttons"), "about"), lang));
      assert RenderHeroEffect(layout, data, lang) == Then(Then(Then(Then(e1, e2), e3), e4), e5);
      Keys5(e1, e2, e3, e4, e5);
      WithinFive(Written(RenderHeroEffect(layout, data, lang).writes).Keys,
                 Written(e1.writes).Keys, Written(e2.writes).Keys, Written(e3.writes).Keys,
                 Written(e4.writes).Keys, Written(e5.writes).Keys,
                 Single(Sel("#name")), Single(Sel("#role")), Single(Id("hero-description")),
                 Single(Sel("#contact-btn")), Single(Sel("#about-btn")));
    }
  }

  /**
    `renderHeroDescription(descriptions)`, which nothing calls: strings are
    kept as they are and anything else is localized.
  */
  function RenderHeroDescriptionEffect(layout: Layout, descriptions: Value, lang: Lang): (e: Effect)
    ensures !e.completed <==> Id("hero-description") in layout.present && Truthy(descriptions) && !descriptions.Arr?
    ensures Written(e.writes).Keys <= {Single(Id("hero-description"))}
    ensures Truthy(descriptions) ==>
              HtmlShown(e, layout, Id("hero-description"), MapJoin((d: Value) => DescriptionParagraph(d, lang), descriptions))
  {
    if Id("hero-description") !in layout.present || !Truthy(descriptions) then Done
    else HtmlWrite(layout, Id("hero-description"), MapJoin((d: Value) => DescriptionParagraph(d, lang), descriptions))
  }

  /** One paragraph of `renderHeroDescription`: strings as they are, anything else localized. */
  function DescriptionParagraph(d: Value, lang: Lang): (r: Completion<string>)
    ensures r.Normal?
    ensures Contains(r.value, ToStr(if d.Str? then d else Localize(d, lang)))
  {
    Normal(HeroDescriptionParagraph(if d.Str? then d else Localize(d, lang)))
  }

  /** Every description's text occurs in the markup `renderHeroDescription` builds. */
  lemma DescriptionShowsEach(descriptions: Value, lang: Lang, i: nat)
    requires descriptions.Arr? && i < |descriptions.items|
    ensures MapJoin((d: Value) => DescriptionParagraph(d, lang), descriptions).Normal?
    ensures Contains(MapJoin((d: Value) => DescriptionParagraph(d, lang), descriptions).value,
                     ToStr(if descriptions.items[i].Str? then descriptions.items[i] else Localize(descriptions.items[i], lang)))
  {
    var f := (d: Value) => DescriptionParagraph(d, lang);
    MapJoinShowsEach(f, descriptions, i);
    ContainsTrans(MapJoin(f, descriptions).value, f(descriptions.items[i]).value,
                  ToStr(if descriptions.items[i].Str? then descriptions.items[i] else Localize(descriptions.items[i], lang)));
  }

  // ----- renderAbout (js/script.js:469-518) -----

  /**
    The `forEach` over the about descriptions: the i-th description goes into
    the i-th description paragraph, as far as there are paragraphs.
  */
  function AboutDescriptionWrites(descriptions: seq<Value>, count: nat, lang: Lang): seq<Write>
    decreases |descriptions|
  {
    if |descriptions| == 0 then []
    else
      var i := |descriptions| - 1;
      var prefix := AboutDescriptionWrites(descriptions[..i], count, lang);
      if i < count then prefix + [SetText(Item(AboutDescriptions, i), Localize(descriptions[i], lang))]
      else prefix
  }

  /** Description paragraph `i` is written iff description `i` exists and so does paragraph `i`. */
  lemma {:induction false} AboutDescriptionKeys(descriptions: seq<Value>, count: nat, lang: Lang)
    ensures forall k :: k in Written(AboutDescriptionWrites(descriptions, count, lang))
                   <==> k.Item? && k.list == AboutDescriptions && k.index < |descriptions| && k.index < count
    decreases |descriptions|
  {
    if |descriptions| > 0 {
      var i := |descriptions| - 1;
      AboutDescriptionKeys(descriptions[..i], count, lang);
      var prefix := AboutDescriptionWrites(descriptions[..i], count, lang);
      if i < count {
        WrittenSnoc(prefix, SetText(Item(AboutDescriptions, i), Localize(descriptions[i], lang)));
      }
    }
  }

  /** Each written description paragraph holds its description's localized text. */
  lemma {:induction false} AboutDescriptionTexts(descriptions: seq<Value>, count: nat, lang: Lang)
    ensures forall j | 0 <= j < |descriptions| && j < count ::
              var w := Written(AboutDescriptionWrites(descriptions, count, lang));
              Item(AboutDescriptions, j) in w && w[Item(AboutDescriptions, j)] == Text(TextContentOf(Localize(descriptions[j], lang)))
    decreases |descriptions|
  {
    if |descriptions| > 0 {
      var i := |descriptions| - 1;
      AboutDescriptionTexts(descriptions[..i], count, lang);
      var prefix := AboutDescriptionWrites(descriptions[..i], count, lang);
      var ws := AboutDescriptionWrites(descriptions, count, lang);
      if i < count {
        WrittenSnoc(prefix, SetText(Item(AboutDescriptions, i), Localize(descriptions[i], lang)));
      }
      forall j | 0 <= j < |descriptions| && j < count
        ensures Item(AboutDescriptions, j) in Written(ws)
             && Written(ws)[Item(AboutDescriptions, j)] == Text(TextContentOf(Localize(descriptions[j], lang)))
      {
        if j < i {
          assert descriptions[..i][j] == descriptions[j];
        } else {
          assert j == i;
        }
      }
    }
  }

  function AboutDescriptionsEffect(layout: Layout, descriptions: Value, lang: Lang): Effect {
    if Truthy(descriptions) && descriptions.Arr? then
      Effect(AboutDescriptionWrites(descriptions.items, layout.aboutDescriptionCount, lang), true)
    else Done
  }

  /**
    `if (el && items) el.innerHTML = items.map(f).join('')`: it throws exactly
    when the map does, and otherwise leaves the joined markup in `t`.
  */
  function ListMarkupEffect(layout: Layout, t: Target, items: Value, f: Value -> Completion<string>): (e: Effect)
    ensures e.completed <==> !(t in layout.present && Truthy(items) && MapJoin(f, items).Thrown?)
    ensures Written(e.writes).Keys <= {Single(t)}
    ensures Truthy(items) ==> HtmlShown(e, layout, t, MapJoin(f, items))
  {
    if t in layout.present && Truthy(items) then HtmlWrite(layout, t, MapJoin(f, items)) else Done
  }

  /** Whether filling one of the about lists throws: its element exists, its items are truthy and `map` throws. */
  predicate AboutListThrows(layout: Layout, selector: string, items: Value, f: Value -> Completion<string>) {
    Within("about", selector) in layout.present && Truthy(items) && MapJoin(f, items).Thrown?
  }

  /**
    `renderAbout()`: title, descriptions, stats and skill cards. The title is
    assigned even when it localizes to the empty string.
  */
  function RenderAboutEffect(layout: Layout, data: Option<Bundle>, lang: Lang): (e: Effect)
    ensures Id("about") !in layout.present || data.None? || !Truthy(data.value.about) ==> e == Done
    ensures Id("about") in layout.present && data.Some? && Truthy(data.value.about) && Within("about", "h2") in layout.present ==>
              |e.writes| > 0 && e.writes[0] == SetText(Single(Within("about", "h2")), Localize(Member(data.value.about, "title"), lang))
    ensures !e.completed <==> Id("about") in layout.present && data.Some? && Truthy(data.value.about)
                              && (AboutListThrows(layout, ".flex.flex-wrap.gap-6", Member(data.value.about, "stats"),
                                                  (s: Value) => StatItem(s, lang))
                                  || AboutListThrows(layout, ".grid.grid-cols-2.gap-4", Member(data.value.about, "skills"),
                                                     (s: Value) => AboutSkillItem(s, lang)))
  {
    if Id("about") !in layout.present || data.None? || !Truthy(data.value.about) then Done
    else
      var about := data.value.about;
      Then(Then(Then(
        AssignText(layout, Within("about", "h2"), Localize(Member(about, "title"), lang)),
        AboutDescriptionsEffect(layout, Member(about, "descriptions"), lang)),
        ListMarkupEffect(layout, Within("about", ".flex.flex-wrap.gap-6"), Member(about, "stats"), (s: Value) => StatItem(s, lang))),
        ListMarkupEffect(layout, Within("about", ".grid.grid-cols-2.gap-4"), Member(about, "skills"), (s: Value) => AboutSkillItem(s, lang)))
  }

  /** The about paragraphs, by position. */
  function AboutDescriptionKeySet(count: nat): set<Key> {
    set j | 0 <= j < count :: Item(AboutDescriptions, j)
  }

  /**
    An about render that completes assigns the title, puts each description
    into its paragraph as far as there are paragraphs, and fills the stats
    and skills elements with their cards.
  */
  lemma AboutWrites(layout: Layout, data: Option<Bundle>, lang: Lang)
    requires Id("about") in layout.present && data.Some? && Truthy(data.value.about)
    requires RenderAboutEffect(layout, data, lang).completed
    ensures var e, about := RenderAboutEffect(layout, data, lang), data.value.about;
            TextAssigned(e, layout, Within("about", "h2"), Localize(Member(about, "title"), lang))
    ensures var e, descriptions := RenderAboutEffect(layout, data, lang), Member(data.value.about, "descriptions");
            Truthy(descriptions) && descriptions.Arr? ==>
              forall j | 0 <= j < |descriptions.items| && j < layout.aboutDescriptionCount ::
                Holds(e, Item(AboutDescriptions, j), Text(TextContentOf(Localize(descriptions.items[j], lang))))
    ensures var e, stats := RenderAboutEffect(layout, data, lang), Member(data.value.about, "stats");
            Truthy(stats) ==> HtmlShown(e, layout, Within("about", ".flex.flex-wrap.gap-6"), MapJoin((s: Value) => StatItem(s, lang), stats))
    ensures var e, skills := RenderAboutEffect(layout, data, lang), Member(data.value.about, "skills");
            Truthy(skills) ==>
              HtmlShown(e, layout, Within("about", ".grid.grid-cols-2.gap-4"), MapJoin((s: Value) => AboutSkillItem(s, lang), skills))
  {
    var about := data.value.about;
    var descriptions := Member(about, "descriptions");
    var stats, skills := Member(about, "stats"), Member(about, "skills");
    var e1 := AssignText(layout, Within("about", "h2"), Localize(Member(about, "title"), lang));
    var e2 := AboutDescriptionsEffect(layout, descriptions, lang);
    var e3 := ListMarkupEffect(layout, Within("about", ".flex.flex-wrap.gap-6"), stats, (s: Value) => StatItem(s, lang));
    var e4 := ListMarkupEffect(layout, Within("about", ".grid.grid-cols-2.gap-4"), skills, (s: Value) => AboutSkillItem(s, lang));
    var e := RenderAboutEffect(layout, data, lang);
    assert e == Then(Then(Then(e1, e2), e3), e4);
    var k2 := AboutDescriptionKeySet(layout.aboutDescriptionCount);
    if Truthy(descriptions) && descriptions.Arr? {
      AboutDescriptionKeys(descriptions.items, layout.aboutDescriptionCount, lang);
      AboutDescriptionTexts(descriptions.items, layout.aboutDescriptionCount, lang);
      forall k | k in Written(e2.writes) ensures k in k2 {
        assert k == Item(AboutDescriptions, k.index);
      }
    }
    Chain4(e1, e2, e3, e4, {Single(Within("about", "h2"))}, k2,
           {Single(Within("about", ".flex.flex-wrap.gap-6"))}, {Single(Within("about", ".grid.grid-cols-2.gap-4"))});
    TextAssignedTransfer(e, e1, layout, Within("about", "h2"), Localize(Member(about, "title"), lang));
    if Truthy(descriptions) && descriptions.Arr? {
      forall j | 0 <= j < |descriptions.items| && j < layout.aboutDescriptionCount
        ensures Holds(e, Item(AboutDescriptions, j), Text(TextContentOf(Localize(descriptions.items[j], lang))))
      {
        assert Item(AboutDescriptions, j) in k2;
      }
    }
    if Truthy(stats) {
      HtmlShownTransfer(e, e3, layout, Within("about", ".flex.flex-wrap.gap-6"), MapJoin((s: Value) => StatItem(s, lang), stats));
    }
    if Truthy(skills) {
      HtmlShownTransfer(e, e4, layout, Within("about", ".grid.grid-cols-2.gap-4"), MapJoin((s: Value) => AboutSkillItem(s, lang), skills));
    }
  }

  // ----- renderExperience (js/script.js:360-372) -----

  /**
    `renderExperience()`: the section title is set on every call, before the
    guard, so even before the content has loaded; the cards are built
    before it is checked whether the list element exists.
  */
  function RenderExperienceEffect(layout: Layout, data: Option<Bundle>, lang: Lang): (e: Effect)
    ensures Sel("#experience-title") in layout.present ==>
              |e.writes| > 0 && e.writes[0] == SetText(Single(Sel("#experience-title")), Str(TranslateText("experience", lang)))
    ensures data.None? ==> e.completed && (e.writes == [] <==> Sel("#experience-title") !in layout.present)
    ensures !e.completed <==> Id("experience-container") in layout.present && data.Some? && Truthy(data.value.experience)
                              && MapJoin((x: Value) => CreateExperienceCard(x, lang), data.value.experience).Thrown?
  {
    var title := UpdateText(layout, Sel("#experience-title"), Str(TranslateText("experience", lang)));
    if Id("experience-container") !in layout.present || data.None? || !Truthy(data.value.experience) then Then(title, Done)
    else
      var cards := MapJoin((x: Value) => CreateExperienceCard(x, lang), data.value.experience);
      Then(title, HtmlWrite(layout, Within("experience-container", "#experience-list"), cards))
  }

  /**
    An experience render that completes sets the section title, and once the
    content is loaded fills the list with one card per experience.
  */
  lemma ExperienceWrites(layout: Layout, data: Option<Bundle>, lang: Lang)
    requires RenderExperienceEffect(layout, data, lang).completed
    ensures TextShown(RenderExperienceEffect(layout, data, lang), layout, Sel("#experience-title"), Str(TranslateText("experience", lang)))
    ensures Id("experience-container") in layout.present && data.Some? && Truthy(data.value.experience) ==>
              HtmlShown(RenderExperienceEffect(layout, data, lang), layout, Within("experience-container", "#experience-list"),
                        MapJoin((x: Value) => CreateExperienceCard(x, lang), data.value.experience))
    ensures Written(RenderExperienceEffect(layout, data, lang).writes).Keys
         <= {Single(Sel("#experience-title")), Single(Within("experience-container", "#experience-list"))}
  {
    var e := RenderExperienceEffect(layout, data, lang);
    var title := UpdateText(layout, Sel("#experience-title"), Str(TranslateText("experience", lang)));
    var list := if Id("experience-container") !in layout.present || data.None? || !Truthy(data.value.experience) then Done
                else HtmlWrite(layout, Within("experience-container", "#experience-list"),
                               MapJoin((x: Value) => CreateExperienceCard(x, lang), data.value.experience));
    assert e == Then(title, list);
    var k1, k2 := Single(Sel("#experience-title")), Single(Within("experience-container", "#experience-list"));
    ThenSplit(title, list, {k1}, {k2});
    TextShownTransfer(e, title, layout, Sel("#experience-title"), Str(TranslateText("experience", lang)));
    if Id("experience-container") in layout.present && data.Some? && Truthy(data.value.experience) {
      HtmlShownTransfer(e, list, layout, Within("experience-container", "#experience-list"),
                        MapJoin((x: Value) => CreateExperienceCard(x, lang), data.value.experience));
    }
  }

  /** In a completed experience render over an array, an existing list holds the joined cards, one per experience. */
  lemma ExperienceListHoldsCards(layout: Layout, data: Option<Bundle>, lang: Lang, i: nat)
    requires Id("experience-container") in layout.present && Within("experience-container", "#experience-list") in layout.present
    requires data.Some? && data.value.experience.Arr? && i < |data.value.experience.items|
    requires RenderExperienceEffect(layout, data, lang).completed
    ensures var cards, exp := MapJoin((x: Value) => CreateExperienceCard(x, lang), data.value.experience), data.value.experience.items[i];
            cards.Normal? && CreateExperienceCard(exp, lang).Normal?
            && Holds(RenderExperienceEffect(layout, data, lang), Single(Within("experience-container", "#experience-list")), Html(cards.value))
            && Contains(cards.value, CreateExperienceCard(exp, lang).value)
  {
    ExperienceWrites(layout, data, lang);
    MapJoinShowsEach((x: Value) => CreateExperienceCard(x, lang), data.value.experience, i);
  }

  /** The joined experience cards name each experience's company, role and duration. */
  lemma ExperienceListShowsEach(experience: Value, lang: Lang, i: nat)
    requires MapJoin((x: Value) => CreateExperienceCard(x, lang), experience).Normal?
    requires experience.Arr? && i < |experience.items|
    ensures var cards, exp := MapJoin((x: Value) => CreateExperienceCard(x, lang), experience).value, experience.items[i];
            Contains(cards, ToStr(Localize(Member(exp, "company"), lang)))
            && Contains(cards, ToStr(Localize(Member(exp, "role"), lang)))
            && Contains(cards, ToStr(Localize(Member(exp, "duration"), lang)))
  {
    var cards, exp := MapJoin((x: Value) => CreateExperienceCard(x, lang), experience).value, experience.items[i];
    MapJoinShowsEach((x: Value) => CreateExperienceCard(x, lang), experience, i);
    ExperienceCardShows(exp, lang);
    var card := CreateExperienceCard(exp, lang).value;
    ContainsTrans(cards, card, ToStr(Localize(Member(exp, "company"), lang)));
    ContainsTrans(cards, card, ToStr(Localize(Member(exp, "role"), lang)));
    ContainsTrans(cards, card, ToStr(Localize(Member(exp, "duration"), lang)));
  }

  // ----- renderEducation and renderLanguages (js/script.js:520-577) -----

  /** `renderEducation()`: title, subtitle, then the items, whose building throws for a non-array `items`. */
  function RenderEducationEffect(layout: Layout, data: Option<Bundle>, lang: Lang): (e: Effect)
    ensures Id("education") !in layout.present || data.None? || !Truthy(data.value.education) ==> e == Done
    ensures !e.completed <==> Id("education") in layout.present && data.Some? && Truthy(data.value.education)
                              && MapJoin((x: Value) => EducationItem(x, lang), Member(data.value.education, "items")).Thrown?
  {
    if Id("education") !in layout.present || data.None? || !Truthy(data.value.education) then Done
    else
      var education := data.value.education;
      Then(Then(
        UpdateText(layout, Sel("#education h2"), Localize(Member(education, "title"), lang)),
        UpdateText(layout, Sel("#education p"), Localize(Member(education, "subtitle"), lang))),
        HtmlWrite(layout, Within("education", "#education-list"),
                  MapJoin((x: Value) => EducationItem(x, lang), Member(education, "items"))))
  }

  /** `renderLanguages()`: title, subtitle, then one row per language. */
  function RenderLanguagesEffect(layout: Layout, data: Option<Bundle>, lang: Lang): (e: Effect)
    ensures Id("languages") !in layout.present || data.None? || !Truthy(data.value.languages) ==> e == Done
    ensures !e.completed <==> Id("languages") in layout.present && data.Some? && Truthy(data.value.languages)
                              && MapJoin((x: Value) => LanguageItem(x, lang), Member(data.value.languages, "items")).Thrown?
  {
    if Id("languages") !in layout.present || data.None? || !Truthy(data.value.languages) then Done
    else
      var languages := data.value.languages;
      Then(Then(
        UpdateText(layout, Sel("#languages h2"), Localize(Member(languages, "title"), lang)),
        UpdateText(layout, Sel("#languages p"), Localize(Member(languages, "subtitle"), lang))),
        HtmlWrite(layout, Within("languages", "#languages-list"),
                  MapJoin((x: Value) => LanguageItem(x, lang), Member(languages, "items"))))
  }

  /**
    An education render that completes sets the title and the subtitle and
    fills the list with one card per item, and writes nothing else.
  */
  lemma EducationWrites(layout: Layout, data: Option<Bundle>, lang: Lang)
    requires Id("education") in layout.present && data.Some? && Truthy(data.value.education)
    requires RenderEducationEffect(layout, data, lang).completed
    ensures var e, education := RenderEducationEffect(layout, data, lang), data.value.education;
            TextShown(e, layout, Sel("#education h2"), Localize(Member(education, "title"), lang))
            && TextShown(e, layout, Sel("#education p"), Localize(Member(education, "subtitle"), lang))
            && HtmlShown(e, layout, Within("education", "#education-list"),
                         MapJoin((x: Value) => EducationItem(x, lang), Member(education, "items")))
    ensures Written(RenderEducationEffect(layout, data, lang).writes).Keys
         <= {Single(Sel("#education h2")), Single(Sel("#education p")), Single(Within("education", "#education-list"))}
  {
    var education := data.value.education;
    var e := RenderEducationEffect(layout, data, lang);
    var e1 := UpdateText(layout, Sel("#education h2"), Localize(Member(education, "title"), lang));
    var e2 := UpdateText(layout, Sel("#education p"), Localize(Member(education, "subtitle"), lang));
    var e3 := HtmlWrite(layout, Within("education", "#education-list"),
                        MapJoin((x: Value) => EducationItem(x, lang), Member(education, "items")));
    assert e == Then(Then(e1, e2), e3);
    var k1, k2, k3 := Single(Sel("#education h2")), Single(Sel("#education p")), Single(Within("education", "#education-list"));
    Chain3(e1, e2, e3, {k1}, {k2}, {k3});
    TextShownTransfer(e, e1, layout, Sel("#education h2"), Localize(Member(education, "title"), lang));
    TextShownTransfer(e, e2, layout, Sel("#education p"), Localize(Member(education, "subtitle"), lang));
    HtmlShownTransfer(e, e3, layout, Within("education", "#education-list"),
                      MapJoin((x: Value) => EducationItem(x, lang), Member(education, "items")));
  }

  /**
    A languages render that completes sets the title and the subtitle and
    fills the list with one row per language, and writes nothing else.
  */
  lemma LanguagesWrites(layout: Layout, data: Option<Bundle>, lang: Lang)
    requires Id("languages") in layout.present && data.Some? && Truthy(data.value.languages)
    requires RenderLanguagesEffect(layout, data, lang).completed
    ensures var e, languages := RenderLanguagesEffect(layout, data, lang), data.value.languages;
            TextShown(e, layout, Sel("#languages h2"), Localize(Member(languages, "title"), lang))
            && TextShown(e, layout, Sel("#languages p"), Localize(Member(languages, "subtitle"), lang))
            && HtmlShown(e, layout, Within("languages", "#languages-list"),
                         MapJoin((x: Value) => LanguageItem(x, lang), Member(languages, "items")))
    ensures Written(RenderLanguagesEffect(layout, data, lang).writes).Keys
         <= {Single(Sel("#languages h2")), Single(Sel("#languages p")), Single(Within("languages", "#languages-list"))}
  {
    var languages := data.value.languages;
    var e := RenderLanguagesEffect(layout, data, lang);
    var e1 := UpdateText(layout, Sel("#languages h2"), Localize(Member(languages, "title"), lang));
    var e2 := UpdateText(layout, Sel("#languages p"), Localize(Member(languages, "subtitle"), lang));
    var e3 := HtmlWrite(layout, Within("languages", "#languages-list"),
                        MapJoin((x: Value) => LanguageItem(x, lang), Member(languages, "items")));
    assert e == Then(Then(e1, e2), e3);
    var k1, k2, k3 := Single(Sel("#languages h2")), Single(Sel("#languages p")), Single(Within("languages", "#languages-list"));
    Chain3(e1, e2, e3, {k1}, {k2}, {k3});
    TextShownTransfer(e, e1, layout, Sel("#languages h2"), Localize(Member(languages, "title"), lang));
    TextShownTransfer(e, e2, layout, Sel("#languages p"), Localize(Member(languages, "subtitle"), lang));
    HtmlShownTransfer(e, e3, layout, Within("languages", "#languages-list"),
                      MapJoin((x: Value) => LanguageItem(x, lang), Member(languages, "items")));
  }

  /** The joined education cards name each item's institution, degree and year. */
  lemma EducationListShowsEach(items: Value, lang: Lang, i: nat)
    requires MapJoin((x: Value) => EducationItem(x, lang), items).Normal?
    requires items.Arr? && i < |items.items|
    ensures var cards, edu := MapJoin((x: Value) => EducationItem(x, lang), items).value, items.items[i];
            Contains(cards, ToStr(Member(edu, "institution")))
            && Contains(cards, ToStr(Localize(Member(edu, "degree"), lang)))
            && Contains(cards, ToStr(Member(edu, "year")))
  {
    var cards, edu := MapJoin((x: Value) => EducationItem(x, lang), items).value, items.items[i];
    MapJoinShowsEach((x: Value) => EducationItem(x, lang), items, i);
    var card, facts := EducationItem(edu, lang).value, EducationFacts(edu, lang);
    ContainsTrans(cards, card, facts);
    ContainsTrans(cards, facts, ToStr(Member(edu, "institution")));
    ContainsTrans(cards, facts, ToStr(Localize(Member(edu, "degree"), lang)));
    ContainsTrans(cards, facts, ToStr(Member(edu, "year")));
  }

  /** The joined language rows name each language and its level. */
  lemma LanguagesListShowsEach(items: Value, lang: Lang, i: nat)
    requires MapJoin((x: Value) => LanguageItem(x, lang), items).Normal?
    requires items.Arr? && i < |items.items|
    ensures var rows, entry := MapJoin((x: Value) => LanguageItem(x, lang), items).value, items.items[i];
            Contains(rows, ToStr(Localize(Member(entry, "language"), lang)))
            && Contains(rows, ToStr(Localize(Member(entry, "level"), lang)))
  {
    var rows, entry := MapJoin((x: Value) => LanguageItem(x, lang), items).value, items.items[i];
    MapJoinShowsEach((x: Value) => LanguageItem(x, lang), items, i);
    var row := LanguageItem(entry, lang).value;
    ContainsTrans(rows, row, ToStr(Localize(Member(entry, "language"), lang)));
    ContainsTrans(rows, row, ToStr(Localize(Member(entry, "level"), lang)));
  }

  // ----- renderSkills (js/script.js:612-624) -----

  function SkillsContentEffect(layout: Layout, skills: Value, lang: Lang): Effect {
    if Id("skills-content") in layout.present then HtmlWrite(layout, Id("skills-content"), CreateSkillsHtml(skills, lang))
    else Done
  }

  /** `renderSkills()`: the title, then the skills markup when its container exists. */
  function RenderSkillsEffect(layout: Layout, data: Option<Bundle>, lang: Lang): (e: Effect)
    ensures Id("skills") !in layout.present || data.None? || !Truthy(data.value.skills) ==> e == Done
    ensures !e.completed <==> Id("skills") in layout.present && data.Some? && Truthy(data.value.skills)
                              && Id("skills-content") in layout.present && CreateSkillsHtml(data.value.skills, lang).Thrown?
  {
    if Id("skills") !in layout.present || data.None? || !Truthy(data.value.skills) then Done
    else
      var skills := data.value.skills;
      Then(UpdateText(layout, Sel("#skills h2"), Localize(Member(skills, "title"), lang)),
           SkillsContentEffect(layout, skills, lang))
  }

  /** A skills render that completes sets the title and fills the skills content, and writes nothing else. */
  lemma SkillsWrites(layout: Layout, data: Option<Bundle>, lang: Lang)
    requires Id("skills") in layout.present && data.Some? && Truthy(data.value.skills)
    requires RenderSkillsEffect(layout, data, lang).completed
    ensures var e, skills := RenderSkillsEffect(layout, data, lang), data.value.skills;
            TextShown(e, layout, Sel("#skills h2"), Localize(Member(skills, "title"), lang))
            && HtmlShown(e, layout, Id("skills-content"), CreateSkillsHtml(skills, lang))
    ensures Written(RenderSkillsEffect(layout, data, lang).writes).Keys <= {Single(Sel("#skills h2")), Single(Id("skills-content"))}
  {
    var skills := data.value.skills;
    var e := RenderSkillsEffect(layout, data, lang);
    var e1 := UpdateText(layout, Sel("#skills h2"), Localize(Member(skills, "title"), lang));
    var e2 := SkillsContentEffect(layout, skills, lang);
    assert e == Then(e1, e2);
    assert HtmlShown(e2, layout, Id("skills-content"), CreateSkillsHtml(skills, lang));
    ThenSplit(e1, e2, {Single(Sel("#skills h2"))}, {Single(Id("skills-content"))});
    TextShownTransfer(e, e1, layout, Sel("#skills h2"), Localize(Member(skills, "title"), lang));
    HtmlShownTransfer(e, e2, layout, Id("skills-content"), CreateSkillsHtml(skills, lang));
  }

  // ----- renderContact (js/script.js:588-610) -----

  /** The entries of `contactMethods` the first four contact-card headings show, in order. */
  const ContactMethodKeys: seq<string> := ["email", "whatsapp", "phone", "location"]

  function ContactCardWrite(methods: Value, i: nat, lang: Lang): Write
    requires i < 4
  {
    SetText(Item(ContactCards, i), Localize(Member(methods, ContactMethodKeys[i]), lang))
  }

  /**
    The four contact-card headings, set only when there are at least four;
    reading an entry of a missing `contactMethods` throws.
  */
  function ContactCardsEffect(layout: Layout, contact: Value, lang: Lang): (e: Effect)
    ensures !e.completed <==> layout.contactCardCount >= 4 && Nullish(Member(contact, "contactMethods"))
    ensures e.completed && layout.contactCardCount >= 4 ==>
              Written(e.writes).Keys == {Item(ContactCards, 0), Item(ContactCards, 1), Item(ContactCards, 2), Item(ContactCards, 3)}
    ensures e.completed && layout.contactCardCount >= 4 ==> forall i | 0 <= i < 4 ::
              Written(e.writes)[Item(ContactCards, i)]
              == Text(TextContentOf(Localize(Member(Member(contact, "contactMethods"), ContactMethodKeys[i]), lang)))
    ensures layout.contactCardCount < 4 ==> e == Done
  {
    if layout.contactCardCount < 4 then Done
    else
      var methods := Member(contact, "contactMethods");
      if Nullish(methods) then Abort
      else
        var w0, w1, w2, w3 := ContactCardWrite(methods, 0, lang), ContactCardWrite(methods, 1, lang),
                              ContactCardWrite(methods, 2, lang), ContactCardWrite(methods, 3, lang);
        WrittenSnoc([], w0);
        WrittenSnoc([w0], w1);
        WrittenSnoc([w0, w1], w2);
        WrittenSnoc([w0, w1, w2], w3);
        assert [] + [w0] == [w0] && [w0] + [w1] == [w0, w1] && [w0, w1] + [w2] == [w0, w1, w2]
            && [w0, w1, w2] + [w3] == [w0, w1, w2, w3];
        Effect([w0, w1, w2, w3], true)
  }

  /** `renderContact()`: title, subtitle, the four card headings and the location line. */
  function RenderContactEffect(layout: Layout, data: Option<Bundle>, lang: Lang): (e: Effect)
    ensures Id("contact") !in layout.present || data.None? || !Truthy(data.value.contact) ==> e == Done
    ensures !e.completed <==> Id("contact") in layout.present && data.Some? && Truthy(data.value.contact)
                              && layout.contactCardCount >= 4 && Nullish(Member(data.value.contact, "contactMethods"))
  {
    if Id("contact") !in layout.present || data.None? || !Truthy(data.value.contact) then Done
    else
      var contact := data.value.contact;
      Then(Then(Then(
        UpdateText(layout, Sel("#contact h2"), Localize(Member(contact, "title"), lang)),
        UpdateText(layout, Sel("#contact p.text-center"), Localize(Member(contact, "subtitle"), lang))),
        ContactCardsEffect(layout, contact, lang)),
        AssignText(layout, Within("contact", ".group:last-child p"), Localize(Member(contact, "location"), lang)))
  }

  /** The four contact-card headings. */
  const ContactCardKeys: set<Key> := {Item(ContactCards, 0), Item(ContactCards, 1), Item(ContactCards, 2), Item(ContactCards, 3)}

  /**
    A contact render that completes sets the title, the subtitle and the
    location line, and its card headings are those of the cards step.
  */
  lemma ContactWrites(layout: Layout, data: Option<Bundle>, lang: Lang)
    requires Id("contact") in layout.present && data.Some? && Truthy(data.value.contact)
    requires RenderContactEffect(layout, data, lang).completed
    ensures var e, contact := RenderContactEffect(layout, data, lang), data.value.contact;
            TextShown(e, layout, Sel("#contact h2"), Localize(Member(contact, "title"), lang))
            && TextShown(e, layout, Sel("#contact p.text-center"), Localize(Member(contact, "subtitle"), lang))
            && TextAssigned(e, layout, Within("contact", ".group:last-child p"), Localize(Member(contact, "location"), lang))
            && AgreesOn(e, ContactCardsEffect(layout, contact, lang), ContactCardKeys)
  {
    var contact := data.value.contact;
    var e := RenderContactEffect(layout, data, lang);
    var e1 := UpdateText(layout, Sel("#contact h2"), Localize(Member(contact, "title"), lang));
    var e2 := UpdateText(layout, Sel("#contact p.text-center"), Localize(Member(contact, "subtitle"), lang));
    var e3 := ContactCardsEffect(layout, contact, lang);
    var e4 := AssignText(layout, Within("contact", ".group:last-child p"), Localize(Member(contact, "location"), lang));
    assert e == Then(Then(Then(e1, e2), e3), e4);
    Chain4(e1, e2, e3, e4, {Single(Sel("#contact h2"))}, {Single(Sel("#contact p.text-center"))}, ContactCardKeys,
           {Single(Within("contact", ".group:last-child p"))});
    TextShownTransfer(e, e1, layout, Sel("#contact h2"), Localize(Member(contact, "title"), lang));
    TextShownTransfer(e, e2, layout, Sel("#contact p.text-center"), Localize(Member(contact, "subtitle"), lang));
    TextAssignedTransfer(e, e4, layout, Within("contact", ".group:last-child p"), Localize(Member(contact, "location"), lang));
  }

  /** With at least four cards, a completed contact render heads card i with the localized i-th contact method. */
  lemma ContactCardsShown(layout: Layout, data: Option<Bundle>, lang: Lang, i: nat)
    requires Id("contact") in layout.present && data.Some? && Truthy(data.value.contact)
    requires RenderContactEffect(layout, data, lang).completed
    requires layout.contactCardCount >= 4 && i < 4
    ensures Holds(RenderContactEffect(layout, data, lang), Item(ContactCards, i),
                  Text(TextContentOf(Localize(Member(Member(data.value.contact, "contactMethods"), ContactMethodKeys[i]), lang))))
  {
    ContactWrites(layout, data, lang);
    assert Item(ContactCards, i) in ContactCardKeys;
  }

  // ----- renderAll (js/script.js:303-312) -----

  /** `renderAll()`: the eight renders in order; the first one that throws stops the rest. */
  function RenderAllEffect(layout: Layout, data: Option<Bundle>, lang: Lang): (e: Effect)
    ensures e.completed <==> RenderNavigationEffect(layout, data, lang).completed && RenderHeroEffect(layout, data, lang).completed
                             && RenderAboutEffect(layout, data, lang).completed && RenderExperienceEffect(layout, data, lang).completed
                             && RenderEducationEffect(layout, data, lang).completed && RenderLanguagesEffect(layout, data, lang).completed
                             && RenderSkillsEffect(layout, data, lang).completed && RenderContactEffect(layout, data, lang).completed
  {
    Then(Then(Then(Then(Then(Then(Then(
      RenderNavigationEffect(layout, data, lang),
      RenderHeroEffect(layout, data, lang)),
      RenderAboutEffect(layout, data, lang)),
      RenderExperienceEffect(layout, data, lang)),
      RenderEducationEffect(layout, data, lang)),
      RenderLanguagesEffect(layout, data, lang)),
      RenderSkillsEffect(layout, data, lang)),
      RenderContactEffect(layout, data, lang))
  }

  /** The page `renderAll` leaves. */
  function RenderAllPage(p: Page, data: Option<Bundle>, lang: Lang): (r: Page)
    ensures r.layout == p.layout
    ensures r.cells == p.cells + Written(RenderAllEffect(p.layout, data, lang).writes)
  {
    ApplyClosedForm(p, RenderAllEffect(p.layout, data, lang).writes);
    Apply(p, RenderAllEffect(p.layout, data, lang).writes)
  }

  /** Calling `renderAll` again, with the same content and language, changes nothing. */
  lemma RenderAllIdempotent(p: Page, data: Option<Bundle>, lang: Lang)
    ensures RenderAllPage(RenderAllPage(p, data, lang), data, lang) == RenderAllPage(p, data, lang)
  {
    var ws := RenderAllEffect(p.layout, data, lang).writes;
    ApplyKeepsLayout(p, ws);
    ApplyIdempotent(p, ws);
  }

  /** Before the content has loaded, `renderAll` only sets the experience title. */
  lemma RenderAllBeforeLoad(layout: Layout, lang: Lang)
    ensures RenderAllEffect(layout, None, lang)
         == (if Sel("#experience-title") in layout.present
             then Effect([SetText(Single(Sel("#experience-title")), Str(TranslateText("experience", lang)))], true)
             else Done)
  {
    var title := UpdateText(layout, Sel("#experience-title"), Str(TranslateText("experience", lang)));
    assert RenderExperienceEffect(layout, None, lang) == Then(title, Done);
    assert Then(title, Done) == title;
    assert RenderNavigationEffect(layout, None, lang) == Done;
    assert RenderHeroEffect(layout, None, lang) == Done;
    assert RenderAboutEffect(layout, None, lang) == Done;
    assert RenderEducationEffect(layout, None, lang) == Done;
    assert RenderLanguagesEffect(layout, None, lang) == Done;
    assert RenderSkillsEffect(layout, None, lang) == Done;
    assert RenderContactEffect(layout, None, lang) == Done;
  }

  // ----- switching language -----

  /**
    `b` ends as `a` ends and writes at least every element `a` writes.
    Rendering `b` after `a` then leaves what `b` alone leaves.
  */
  predicate Covers(a: Effect, b: Effect) {
    a.completed == b.completed && Written(a.writes).Keys <= Written(b.writes).Keys
  }

  lemma ThenCovers(a1: Effect, a2: Effect, b1: Effect, b2: Effect)
    requires Covers(a1, b1) && Covers(a2, b2)
    ensures Covers(Then(a1, a2), Then(b1, b2))
  {
  }

  lemma UpdateTextCovers(layout: Layout, t: Target, data: Value, lang: Lang)
    ensures Covers(UpdateText(layout, t, Localize(data, Fr)), UpdateText(layout, t, Localize(data, lang)))
  {
    if Truthy(Localize(data, Fr)) {
      FrenchTruthyImpliesTruthy(data, lang);
    }
  }

  /** Which links get written depends on the raw navigation entries only, not on the language. */
  lemma NavLinksCovers(hrefs: seq<Option<string>>, nav: Value, lang: Lang, desktop: bool)
    ensures Covers(NavLinksEffect(hrefs, nav, Fr, desktop), NavLinksEffect(hrefs, nav, lang, desktop))
  {
    var a := NavLinksEffect(hrefs, nav, Fr, desktop);
    var b := NavLinksEffect(hrefs, nav, lang, desktop);
    NavLinksKeys(hrefs, nav, Fr, desktop);
    NavLinksShown(hrefs, nav, Fr, desktop);
    NavLinksShown(hrefs, nav, lang, desktop);
    if a.completed {
      forall k | k in Written(a.writes) ensures k in Written(b.writes) {
        assert Item(NavList(desktop), k.index) == k;
      }
    }
  }

  lemma NavigationCovers(layout: Layout, data: Option<Bundle>, lang: Lang)
    ensures Covers(RenderNavigationEffect(layout, data, Fr), RenderNavigationEffect(layout, data, lang))
  {
    if !(data.None? || !Truthy(data.value.navigation)) {
      var nav := data.value.navigation;
      NavLinksCovers(layout.navHrefs, nav, lang, true);
      NavLinksCovers(layout.mobileHrefs, nav, lang, false);
    }
  }

  lemma HtmlWriteCovers(layout: Layout, t: Target, a: Completion<string>, b: Completion<string>)
    requires a.Thrown? == b.Thrown?
    ensures Covers(HtmlWrite(layout, t, a), HtmlWrite(layout, t, b))
  {
  }

  lemma HeroDescriptionsCovers(layout: Layout, descriptions: Value, lang: Lang)
    ensures Covers(HeroDescriptionsEffect(layout, descriptions, Fr), HeroDescriptionsEffect(layout, descriptions, lang))
  {
    if Id("hero-description") in layout.present && Truthy(descriptions) {
      HtmlWriteCovers(layout, Id("hero-description"), HeroDescriptionsMarkup(descriptions, Fr), HeroDescriptionsMarkup(descriptions, lang));
    }
  }

  lemma HeroCovers(layout: Layout, data: Option<Bundle>, lang: Lang)
    ensures Covers(RenderHeroEffect(layout, data, Fr), RenderHeroEffect(layout, data, lang))
  {
    if !(data.None? || !Truthy(data.value.hero) || !Truthy(data.value.about)) {
      var hero := data.value.hero;
      UpdateTextCovers(layout, Sel("#name"), Member(hero, "name"), lang);
      UpdateTextCovers(layout, Sel("#role"), Member(hero, "role"), lang);
      HeroDescriptionsCovers(layout, Member(hero, "descriptions"), lang);
      UpdateTextCovers(layout, Sel("#contact-btn"), Member(Member(hero, "buttons"), "contact"), lang);
      UpdateTextCovers(layout, Sel("#about-btn"), Member(Member(hero, "buttons"), "about"), lang);
    }
  }

  lemma ListMarkupCovers(layout: Layout, t: Target, items: Value, f: Value -> Completion<string>, g: Value -> Completion<string>)
    requires forall x :: f(x).Thrown? == g(x).Thrown?
    ensures Covers(ListMarkupEffect(layout, t, items, f), ListMarkupEffect(layout, t, items, g))
  {
    MapJoinThrowsAlike(f, g, items);
  }

  lemma AboutDescriptionsCovers(layout: Layout, descriptions: Value, lang: Lang)
    ensures Covers(AboutDescriptionsEffect(layout, descriptions, Fr), AboutDescriptionsEffect(layout, descriptions, lang))
  {
    if descriptions.Arr? {
      AboutDescriptionKeys(descriptions.items, layout.aboutDescriptionCount, Fr);
      AboutDescriptionKeys(descriptions.items, layout.aboutDescriptionCount, lang);
    }
  }

  lemma AboutCovers(layout: Layout, data: Option<Bundle>, lang: Lang)
    ensures Covers(RenderAboutEffect(layout, data, Fr), RenderAboutEffect(layout, data, lang))
  {
    if !(Id("about") !in layout.present || data.None? || !Truthy(data.value.about)) {
      var about := data.value.about;
      AboutDescriptionsCovers(layout, Member(about, "descriptions"), lang);
      ListMarkupCovers(layout, Within("about", ".flex.flex-wrap.gap-6"), Member(about, "stats"),
                       (s: Value) => StatItem(s, Fr), (s: Value) => StatItem(s, lang));
      ListMarkupCovers(layout, Within("about", ".grid.grid-cols-2.gap-4"), Member(about, "skills"),
                       (s: Value) => AboutSkillItem(s, Fr), (s: Value) => AboutSkillItem(s, lang));
    }
  }

  lemma ExperienceCovers(layout: Layout, data: Option<Bundle>, lang: Lang)
    ensures Covers(RenderExperienceEffect(layout, data, Fr), RenderExperienceEffect(layout, data, lang))
  {
    if !(Id("experience-container") !in layout.present || data.None? || !Truthy(data.value.experience)) {
      MapJoinThrowsAlike((x: Value) => CreateExperienceCard(x, Fr), (x: Value) => CreateExperienceCard(x, lang),
                         data.value.experience);
    }
  }

  lemma EducationCovers(layout: Layout, data: Option<Bundle>, lang: Lang)
    ensures Covers(RenderEducationEffect(layout, data, Fr), RenderEducationEffect(layout, data, lang))
  {
    if !(Id("education") !in layout.present || data.None? || !Truthy(data.value.education)) {
      var education := data.value.education;
      UpdateTextCovers(layout, Sel("#education h2"), Member(education, "title"), lang);
      UpdateTextCovers(layout, Sel("#education p"), Member(education, "subtitle"), lang);
      MapJoinThrowsAlike((x: Value) => EducationItem(x, Fr), (x: Value) => EducationItem(x, lang), Member(education, "items"));
    }
  }

  lemma LanguagesCovers(layout: Layout, data: Option<Bundle>, lang: Lang)
    ensures Covers(RenderLanguagesEffect(layout, data, Fr), RenderLanguagesEffect(layout, data, lang))
  {
    if !(Id("languages") !in layout.present || data.None? || !Truthy(data.value.languages)) {
      var languages := data.value.languages;
      UpdateTextCovers(layout, Sel("#languages h2"), Member(languages, "title"), lang);
      UpdateTextCovers(layout, Sel("#languages p"), Member(languages, "subtitle"), lang);
      MapJoinThrowsAlike((x: Value) => LanguageItem(x, Fr), (x: Value) => LanguageItem(x, lang), Member(languages, "items"));
    }
  }

  /** Whether building the skills markup throws does not depend on the language. */
  lemma SkillsThrowAlike(skills: Value, lang: Lang)
    ensures CreateSkillsHtml(skills, Fr).Thrown? == CreateSkillsHtml(skills, lang).Thrown?
  {
    SkillsPartsThrowAlike(skills, lang);
  }

  lemma SkillsContentCovers(layout: Layout, skills: Value, lang: Lang)
    ensures Covers(SkillsContentEffect(layout, skills, Fr), SkillsContentEffect(layout, skills, lang))
  {
    SkillsThrowAlike(skills, lang);
  }

  lemma SkillsCovers(layout: Layout, data: Option<Bundle>, lang: Lang)
    ensures Covers(RenderSkillsEffect(layout, data, Fr), RenderSkillsEffect(layout, data, lang))
  {
    if !(Id("skills") !in layout.present || data.None? || !Truthy(data.value.skills)) {
      var skills := data.value.skills;
      UpdateTextCovers(layout, Sel("#skills h2"), Member(skills, "title"), lang);
      SkillsContentCovers(layout, skills, lang);
    }
  }

  lemma ContactCovers(layout: Layout, data: Option<Bundle>, lang: Lang)
    ensures Covers(RenderContactEffect(layout, data, Fr), RenderContactEffect(layout, data, lang))
  {
    if !(Id("contact") !in layout.present || data.None? || !Truthy(data.value.contact)) {
      var contact := data.value.contact;
      UpdateTextCovers(layout, Sel("#contact h2"), Member(contact, "title"), lang);
      UpdateTextCovers(layout, Sel("#contact p.text-center"), Member(contact, "subtitle"), lang);
    }
  }

  /** Every element `renderAll` writes in French it also writes in any language, and it throws alike. */
  lemma RenderAllCovers(layout: Layout, data: Option<Bundle>, lang: Lang)
    ensures Covers(RenderAllEffect(layout, data, Fr), RenderAllEffect(layout, data, lang))
  {
    var e1, e1' := RenderNavigationEffect(layout, data, Fr), RenderNavigationEffect(layout, data, lang);
    var e2, e2' := RenderHeroEffect(layout, data, Fr), RenderHeroEffect(layout, data, lang);
    var e3, e3' := RenderAboutEffect(layout, data, Fr), RenderAboutEffect(layout, data, lang);
    var e4, e4' := RenderExperienceEffect(layout, data, Fr), RenderExperienceEffect(layout, data, lang);
    var e5, e5' := RenderEducationEffect(layout, data, Fr), RenderEducationEffect(layout, data, lang);
    var e6, e6' := RenderLanguagesEffect(layout, data, Fr), RenderLanguagesEffect(layout, data, lang);
    var e7, e7' := RenderSkillsEffect(layout, data, Fr), RenderSkillsEffect(layout, data, lang);
    var e8, e8' := RenderContactEffect(layout, data, Fr), RenderContactEffect(layout, data, lang);
    NavigationCovers(layout, data, lang);
    HeroCovers(layout, data, lang);
    AboutCovers(layout, data, lang);
    ExperienceCovers(layout, data, lang);
    EducationCovers(layout, data, lang);
    LanguagesCovers(layout, data, lang);
    SkillsCovers(layout, data, lang);
    ContactCovers(layout, data, lang);
    ThenCovers(e1, e2, e1', e2');
    ThenCovers(Then(e1, e2), e3, Then(e1', e2'), e3');
    ThenCovers(Then(Then(e1, e2), e3), e4, Then(Then(e1', e2'), e3'), e4');
    ThenCovers(Then(Then(Then(e1, e2), e3), e4), e5, Then(Then(Then(e1', e2'), e3'), e4'), e5');
    ThenCovers(Then(Then(Then(Then(e1, e2), e3), e4), e5), e6, Then(Then(Then(Then(e1', e2'), e3'), e4'), e5'), e6');
    ThenCovers(Then(Then(Then(Then(Then(e1, e2), e3), e4), e5), e6), e7,
               Then(Then(Then(Then(Then(e1', e2'), e3'), e4'), e5'), e6'), e7');
    ThenCovers(Then(Then(Then(Then(Then(Then(e1, e2), e3), e4), e5), e6), e7), e8,
               Then(Then(Then(Then(Then(Then(e1', e2'), e3'), e4'), e5'), e6'), e7'), e8');
  }

  /**
    Switching away from French leaves no French text behind: rendering in
    French and then in another language leaves exactly the page rendering
    that language directly leaves.
  */
  lemma FrenchThenAnyIsDirect(p: Page, data: Option<Bundle>, lang: Lang)
    ensures RenderAllPage(RenderAllPage(p, data, Fr), data, lang) == RenderAllPage(p, data, lang)
  {
    var fr := RenderAllEffect(p.layout, data, Fr).writes;
    ApplyKeepsLayout(p, fr);
    var direct := RenderAllEffect(p.layout, data, lang).writes;
    RenderAllCovers(p.layout, data, lang);
    WrittenKeys(fr);
    WrittenKeys(direct);
    Absorb(p, fr, direct);
  }

  /** A page with only the role element, and a hero whose role has only an English entry. */
  const SampleLayout: Layout := Layout({Sel("#role")}, [], [], 0, 0)
  const SampleHero: Value := Obj(map["role" := Obj(map["en" := Str("Engineer")])])
  const SampleData: Option<Bundle> := Some(Bundle(SampleHero, Obj(map[]), Null, Null, Null, Null, Null, Null))

  /** The sample hero's steps: only the role is written, and only in English. */
  lemma SampleHeroSteps(lang: Lang)
    ensures UpdateText(SampleLayout, Sel("#name"), Localize(Member(SampleHero, "name"), lang)) == Done
    ensures UpdateText(SampleLayout, Sel("#role"), Localize(Member(SampleHero, "role"), lang))
         == if lang == En then Effect([SetText(Single(Sel("#role")), Str("Engineer"))], true) else Done
    ensures HeroDescriptionsEffect(SampleLayout, Member(SampleHero, "descriptions"), lang) == Done
    ensures UpdateText(SampleLayout, Sel("#contact-btn"), Localize(Member(Member(SampleHero, "buttons"), "contact"), lang)) == Done
    ensures UpdateText(SampleLayout, Sel("#about-btn"), Localize(Member(Member(SampleHero, "buttons"), "about"), lang)) == Done
  {
    assert Localize(Member(SampleHero, "role"), lang) == if lang == En then Str("Engineer") else Str("");
  }

  lemma SampleHeroRender(lang: Lang)
    ensures RenderHeroEffect(SampleLayout, SampleData, lang)
         == if lang == En then Effect([SetText(Single(Sel("#role")), Str("Engineer"))], true) else Done
  {
    SampleHeroSteps(lang);
    var hero := SampleHero;
    var e2 := UpdateText(SampleLayout, Sel("#role"), Localize(Member(hero, "role"), lang));
    assert RenderHeroEffect(SampleLayout, SampleData, lang) == Then(Then(Then(Then(Done, e2), Done), Done), Done);
    assert Then(Done, e2) == e2;
    assert Then(Then(Then(e2, Done), Done), Done) == e2;
  }

  /** The navigation, about and experience sections write nothing on the sample page. */
  lemma SampleUpperSilent(lang: Lang)
    ensures RenderNavigationEffect(SampleLayout, SampleData, lang) == Done
    ensures RenderAboutEffect(SampleLayout, SampleData, lang) == Done
    ensures RenderExperienceEffect(SampleLayout, SampleData, lang) == Done
  {
    assert Id("experience-container") !in SampleLayout.present;
    assert Sel("#experience-title") !in SampleLayout.present;
  }

  /** The education, languages, skills and contact sections write nothing on the sample page. */
  lemma SampleLowerSilent(lang: Lang)
    ensures RenderEducationEffect(SampleLayout, SampleData, lang) == Done
    ensures RenderLanguagesEffect(SampleLayout, SampleData, lang) == Done
    ensures RenderSkillsEffect(SampleLayout, SampleData, lang) == Done
    ensures RenderContactEffect(SampleLayout, SampleData, lang) == Done
  {
  }

  /** A step that writes nothing is a unit of sequencing. */
  lemma DoneUnit(a: Effect)
    ensures Then(Done, a) == a && Then(a, Done) == a
  {
    assert [] + a.writes == a.writes && a.writes + [] == a.writes;
  }

  /** When every section but the hero writes nothing, `renderAll` is the hero render. */
  lemma OnlyHeroRenders(layout: Layout, data: Option<Bundle>, lang: Lang)
    requires RenderNavigationEffect(layout, data, lang) == Done && RenderAboutEffect(layout, data, lang) == Done
    requires RenderExperienceEffect(layout, data, lang) == Done && RenderEducationEffect(layout, data, lang) == Done
    requires RenderLanguagesEffect(layout, data, lang) == Done && RenderSkillsEffect(layout, data, lang) == Done
    requires RenderContactEffect(layout, data, lang) == Done
    ensures RenderAllEffect(layout, data, lang) == RenderHeroEffect(layout, data, lang)
  {
    var h := RenderHeroEffect(layout, data, lang);
    DoneUnit(h);
    assert RenderAllEffect(layout, data, lang)
        == Then(Then(Then(Then(Then(Then(Then(Done, h), Done), Done), Done), Done), Done), Done);
  }

  lemma SampleRender(lang: Lang)
    ensures RenderAllEffect(SampleLayout, SampleData, lang)
         == if lang == En then Effect([SetText(Single(Sel("#role")), Str("Engineer"))], true) else Done
  {
    SampleUpperSilent(lang);
    SampleLowerSilent(lang);
    OnlyHeroRenders(SampleLayout, SampleData, lang);
    SampleHeroRender(lang);
  }

  /**
    The other way round it fails: a role with only an English entry is
    written when rendering in English and skipped in French, so switching
    from English to French keeps the English role, where rendering in French
    directly leaves the role element untouched.
  */
  lemma EnglishThenFrenchKeepsEnglish()
    ensures RenderAllPage(RenderAllPage(Page(SampleLayout, map[]), SampleData, En), SampleData, Fr).cells
         == map[Single(Sel("#role")) := Text("Engineer")]
    ensures RenderAllPage(Page(SampleLayout, map[]), SampleData, Fr).cells == map[]
  {
    var p := Page(SampleLayout, map[]);
    SampleRender(En);
    SampleRender(Fr);
    var english := RenderAllPage(p, SampleData, En);
    assert [SetText(Single(Sel("#role")), Str("Engineer"))][..0] == [];
    assert english == Apply1(p, SetText(Single(Sel("#role")), Str("Engineer")));
  }
}
