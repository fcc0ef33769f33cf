/**
  The part of the browser document the portfolio renders into. A page has a
  layout, the elements its HTML fragments contain, which rendering never
  changes, and the content the scripts last wrote into each element. All
  rendering is a sequence of writes: setting `textContent`, setting
  `innerHTML`, or setting a desktop navigation link's text together with its
  animation delay and `animate-fade-in-up` class.
*/
module Dom {
  import opened Json

  /** How a script finds a single element. */
  datatype Target =
    | Id(id: string)                           // document.getElementById(id)
    | Sel(selector: string)                    // document.querySelector(selector)
    | Within(scope: string, selector: string)  // getElementById(scope).querySelector(selector)

  /** The element lists the scripts obtain with `querySelectorAll`. */
  datatype ListName =
    | NavLinks           // document.querySelectorAll('.nav-link')
    | MobileNavLinks     // document.querySelectorAll('.mobile-nav-item')
    | AboutDescriptions  // #about: querySelectorAll('p.text-lg.mb-6')
    | ContactCards       // #contact: querySelectorAll('.grid h3')

  /** What a write addresses: a single element, or the element at an index of a list. */
  datatype Key = Single(target: Target) | Item(list: ListName, index: nat)

  /** The content a write leaves in an element. */
  datatype Cell =
    | Text(text: string)                     // textContent
    | Html(markup: string)                   // innerHTML
    | Animated(text: string, delay: string)  // textContent, style.animationDelay and the fade-in class

  datatype Write = Put(key: Key, cell: Cell)

  /**
    The elements present once the fragments are loaded: the single elements
    that exist, the `href` attribute of each navigation link in document
    order (`None` when the attribute is missing), and the lengths of the two
    other lists.
  */
  datatype Layout = Layout(
    present: set<Target>,
    navHrefs: seq<Option<string>>,
    mobileHrefs: seq<Option<string>>,
    aboutDescriptionCount: nat,
    contactCardCount: nat)

  datatype Page = Page(layout: Layout, cells: map<Key, Cell>)

  function Apply1(p: Page, w: Write): Page {
    p.(cells := p.cells[w.key := w.cell])
  }

  /** Performing the writes in order. */
  function Apply(p: Page, ws: seq<Write>): Page
    decreases |ws|
  {
    if |ws| == 0 then p else Apply1(Apply(p, ws[..|ws| - 1]), ws[|ws| - 1])
  }

  /** The content each key holds after the writes: that of the last write to it. */
  function Written(ws: seq<Write>): map<Key, Cell>
    decreases |ws|
  {
    if |ws| == 0 then map[] else Written(ws[..|ws| - 1])[ws[|ws| - 1].key := ws[|ws| - 1].cell]
  }

  /** The keys the writes address. */
  function KeysOf(ws: seq<Write>): set<Key> {
    set i | 0 <= i < |ws| :: ws[i].key
  }

  /** One more write at the end is one more step. */
  lemma ApplySnoc(p: Page, ws: seq<Write>, w: Write)
    ensures Apply(p, ws + [w]) == Apply1(Apply(p, ws), w)
  {
    assert (ws + [w])[..|ws|] == ws;
  }

  /**
    Applying writes keeps the layout, and every key ends up with its last
    write, or with what it held before when no write addresses it.
  */
  lemma {:induction false} ApplyClosedForm(p: Page, ws: seq<Write>)
    ensures Apply(p, ws) == Page(p.layout, p.cells + Written(ws))
    decreases |ws|
  {
    if |ws| > 0 {
      var init := ws[..|ws| - 1];
      var w := ws[|ws| - 1];
      ApplyClosedForm(p, init);
      assert (p.cells + Written(init))[w.key := w.cell] == p.cells + Written(init)[w.key := w.cell];
    }
  }

  /** A last write overrides whatever the earlier ones left in its element. */
  lemma WrittenSnoc(ws: seq<Write>, w: Write)
    ensures Written(ws + [w]) == Written(ws)[w.key := w.cell]
  {
    assert (ws + [w])[..|ws|] == ws;
  }

  lemma {:induction false} WrittenKeys(ws: seq<Write>)
    ensures Written(ws).Keys == KeysOf(ws)
    decreases |ws|
  {
    if |ws| > 0 {
      var init := ws[..|ws| - 1];
      WrittenKeys(init);
      assert KeysOf(ws) == KeysOf(init) + {ws[|ws| - 1].key} by {
        forall k | k in KeysOf(ws) ensures k in KeysOf(init) + {ws[|ws| - 1].key} {
          var i :| 0 <= i < |ws| && ws[i].key == k;
          if i < |ws| - 1 {
            assert init[i] == ws[i];
          }
        }
        forall k | k in KeysOf(init) ensures k in KeysOf(ws) {
          var i :| 0 <= i < |init| && init[i].key == k;
          assert ws[i] == init[i];
        }
      }
    }
  }

  /** The writes of `a` then `b`: where both write a key, `b`'s write is the one that stays. */
  lemma {:induction false} WrittenAppend(a: seq<Write>, b: seq<Write>)
    ensures Written(a + b) == Written(a) + Written(b)
    decreases |b|
  {
    if |b| == 0 {
      assert a + b == a;
    } else {
      var init := b[..|b| - 1];
      var w := b[|b| - 1];
      assert (a + b)[..|a + b| - 1] == a + init;
      assert (a + b)[|a + b| - 1] == w;
      WrittenAppend(a, init);
      assert (Written(a) + Written(init))[w.key := w.cell] == Written(a) + Written(init)[w.key := w.cell];
    }
  }

  lemma ApplyKeepsLayout(p: Page, ws: seq<Write>)
    ensures Apply(p, ws).layout == p.layout
  {
    ApplyClosedForm(p, ws);
  }

  /** Performing `a` then `b` is performing `a + b`. */
  lemma ApplyAppend(p: Page, a: seq<Write>, b: seq<Write>)
    ensures Apply(Apply(p, a), b) == Apply(p, a + b)
  {
    ApplyClosedForm(p, a);
    ApplyClosedForm(Apply(p, a), b);
    ApplyClosedForm(p, a + b);
    WrittenAppend(a, b);
    assert (p.cells + Written(a)) + Written(b) == p.cells + (Written(a) + Written(b));
  }

  /**
    Writes whose keys are all written again later leave no trace: performing
    `vs` and then `ws` gives the page that `ws` alone gives.
  */
  lemma Absorb(p: Page, vs: seq<Write>, ws: seq<Write>)
    requires KeysOf(vs) <= KeysOf(ws)
    ensures Apply(Apply(p, vs), ws) == Apply(p, ws)
  {
    ApplyClosedForm(p, vs);
    ApplyClosedForm(Apply(p, vs), ws);
    ApplyClosedForm(p, ws);
    WrittenKeys(vs);
    WrittenKeys(ws);
    assert (p.cells + Written(vs)) + Written(ws) == p.cells + Written(ws);
  }

  /** Performing the same writes twice leaves the page they leave once. */
  lemma ApplyIdempotent(p: Page, ws: seq<Write>)
    ensures Apply(Apply(p, ws), ws) == Apply(p, ws)
  {
    Absorb(p, ws, ws);
  }

  /** Nothing else changes: an element no write addresses keeps its content. */
  lemma ApplyUntouched(p: Page, ws: seq<Write>, k: Key)
    requires k !in KeysOf(ws)
    ensures k in Apply(p, ws).cells <==> k in p.cells
    ensures k in p.cells ==> Apply(p, ws).cells[k] == p.cells[k]
  {
    ApplyClosedForm(p, ws);
    WrittenKeys(ws);
  }

  /** The browser document, whose content the portfolio's scripts change in place. */
  class Document {
    var page: Page
    /** Whether `main` is visible: `init` hides it while loading and shows it again. */
    var mainVisible: bool

    constructor(initial: Page)
      ensures page == initial
      ensures mainVisible
    {
      page := initial;
      mainVisible := true;
    }

    /** Performs one write. */
    method Put(w: Write)
      modifies this
      ensures page == Apply(old(page), [w])
      ensures page.layout == old(page).layout
      ensures mainVisible == old(mainVisible)
    {
      page := Apply1(page, w);
      assert [w][..0] == [];
    }

    method SetMainVisible(visible: bool)
      modifies this
      ensures mainVisible == visible
      ensures page == old(page)
    {
      mainVisible := visible;
    }
  }
}
