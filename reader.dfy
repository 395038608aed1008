/**
 * The EPUB reader glue (src/reader.js): the selection handler that positions the
 * "explain" menu, the style injection into a rendered document's head, the
 * content-hook registration of `applyStyles`, and the book replacement of `load`.
 * The rendering library is represented by the objects it hands back (book,
 * rendition, views, documents) and by the outcome of each of its steps.
 */
module Reader {
  import opened Wrappers
  import opened SettingsStore

  // ---------------------------------------------------------------------------
  // String.prototype.trim

  /** ECMAScript WhiteSpace and LineTerminator code points, the characters `trim` removes. */
  predicate IsWhiteSpace(c: char)
  {
    || c == '\t' || c == '\n' || c == '\U{000B}' || c == '\U{000C}' || c == '\r' || c == ' '
    || c == '\U{00A0}' || c == '\U{1680}' || ('\U{2000}' <= c <= '\U{200A}')
    || c == '\U{2028}' || c == '\U{2029}' || c == '\U{202F}' || c == '\U{205F}' || c == '\U{3000}'
    || c == '\U{FEFF}'
  }

  predicate AllWhiteSpace(s: string)
  {
    forall i :: 0 <= i < |s| ==> IsWhiteSpace(s[i])
  }

  /** Drops leading white space: what remains is a suffix that starts with a non-space, or is empty. */
  function TrimStart(s: string): (r: string)
    ensures |r| <= |s| && r == s[|s| - |r|..]
    ensures forall i :: 0 <= i < |s| - |r| ==> IsWhiteSpace(s[i])
    ensures r != [] ==> !IsWhiteSpace(r[0])
  {
    if s != [] && IsWhiteSpace(s[0]) then
      var r := TrimStart(s[1..]);
      assert s[1..][|s| - 1 - |r|..] == s[|s| - |r|..];
      assert forall i :: 1 <= i < |s| - |r| ==> s[i] == s[1..][i - 1];
      r
    else s
  }

  /** Drops trailing white space: what remains is a prefix that ends with a non-space, or is empty. */
  function TrimEnd(s: string): (r: string)
    ensures |r| <= |s| && r == s[..|r|]
    ensures forall i :: |r| <= i < |s| ==> IsWhiteSpace(s[i])
    ensures r != [] ==> !IsWhiteSpace(r[|r| - 1])
  {
    if s != [] && IsWhiteSpace(s[|s| - 1]) then TrimEnd(s[..|s| - 1]) else s
  }

  function Trim(s: string): string
  {
    TrimEnd(TrimStart(s))
  }

  /**
   * `trim` keeps exactly the part of `s` between its leading and its trailing
   * white space: the result is an infix and everything cut is white space.
   */
  lemma TrimIsInfix(s: string) returns (i: nat, j: nat)
    ensures i <= j <= |s| && Trim(s) == s[i..j]
    ensures forall k :: 0 <= k < i ==> IsWhiteSpace(s[k])
    ensures forall k :: j <= k < |s| ==> IsWhiteSpace(s[k])
  {
    var t := TrimStart(s);
    var r := TrimEnd(t);
    i := |s| - |t|;
    j := i + |r|;
    SliceOfSuffix(s, t, r);
  }

  /** A prefix `r` of a suffix `t` of `s` is a slice of `s`, and what `t` has after `r` is what `s` has after it. */
  lemma SliceOfSuffix(s: string, t: string, r: string)
    requires |t| <= |s| && t == s[|s| - |t|..]
    requires |r| <= |t| && r == t[..|r|]
    requires forall k :: |r| <= k < |t| ==> IsWhiteSpace(t[k])
    ensures r == s[|s| - |t|..|s| - |t| + |r|]
    ensures forall k :: |s| - |t| + |r| <= k < |s| ==> IsWhiteSpace(s[k])
  {
    forall k | |s| - |t| + |r| <= k < |s|
      ensures IsWhiteSpace(s[k])
    {
      assert s[k] == t[k - (|s| - |t|)];
    }
  }

  /** The trimmed text neither starts nor ends with white space. */
  lemma TrimEdges(s: string)
    requires Trim(s) != []
    ensures !IsWhiteSpace(Trim(s)[0]) && !IsWhiteSpace(Trim(s)[|Trim(s)| - 1])
  {
    var t := TrimStart(s);
    assert Trim(s)[0] == t[0];
  }

  /** A text trims to nothing exactly when every character of it is white space. */
  lemma TrimEmptyIff(s: string)
    ensures Trim(s) == [] <==> AllWhiteSpace(s)
  {
    var t := TrimStart(s);
    if t != [] {
      assert !IsWhiteSpace(s[|s| - |t|]);
    }
  }

  /** Trimming twice is trimming once. */
  lemma TrimIdempotent(s: string)
    ensures Trim(Trim(s)) == Trim(s)
  {
    var r := Trim(s);
    var _, _ := TrimIsInfix(s);
    assert TrimStart(r) == r;
    assert TrimEnd(r) == r;
  }

  // ---------------------------------------------------------------------------
  // The `selected` handler

  /** A bounding rectangle as `getBoundingClientRect` reports it. */
  datatype Rect = Rect(left: real, top: real, width: real, height: real)

  /** The arguments of `showSelectionMenu(x, y, text)`. */
  datatype MenuRequest = MenuRequest(x: real, y: real, text: string)

  /** Half the menu's width, subtracted to centre it, and the height it is lifted above the selection. */
  const MenuHalfWidth: real := 75.0
  const MenuLift: real := 50.0

  /**
   * The selection handler's decision: no menu for a selection that trims to
   * nothing; otherwise the trimmed text, with the menu centred horizontally on
   * the selection and lifted above its top edge, in the coordinates of the page
   * (selection rectangle plus the offset of the frame that renders it).
   */
  function SelectionMenu(rangeText: string, rect: Rect, frame: Rect): (r: Option<MenuRequest>)
    ensures r.None? <==> AllWhiteSpace(rangeText)
    ensures r.Some? ==> r.value.text == Trim(rangeText) && r.value.text != []
    ensures r.Some? ==> r.value.x + MenuHalfWidth == (frame.left + rect.left) + rect.width / 2.0
    ensures r.Some? ==> r.value.y + MenuLift == frame.top + rect.top
  {
    TrimEmptyIff(rangeText);
    var text := Trim(rangeText);
    if text != [] then
      Some(MenuRequest(rect.left + frame.left + rect.width / 2.0 - 75.0, rect.top + frame.top - 50.0, text))
    else
      None
  }

  /** A worked example: a 150-wide selection at (100, 200) in a frame at (10, 20). */
  lemma SelectionMenuExample()
    ensures SelectionMenu("w", Rect(100.0, 200.0, 150.0, 20.0), Rect(10.0, 20.0, 0.0, 0.0))
         == Some(MenuRequest(110.0, 170.0, "w"))
  {
    assert !IsWhiteSpace('w');
    assert Trim("w") == "w";
  }

  /** The selection state the content click listener inspects. */
  datatype DomSelection = DomSelection(isCollapsed: bool)

  // ---------------------------------------------------------------------------
  // The document head and `injectStyle`

  /** An element of a document's head: tag name, id attribute and text content. */
  datatype Element = Element(tag: string, id: string, text: string)

  const StyleId: string := "brepub-custom-styles"

  /** The style element `injectStyle` creates when none is found. */
  function NewStyle(css: string): Element
  {
    Element("style", StyleId, css)
  }

  /** `querySelector('#id')` on the head: the first element carrying the id. */
  function FindById(head: seq<Element>, id: string): (r: Option<nat>)
    ensures r.None? <==> forall i :: 0 <= i < |head| ==> head[i].id != id
    ensures r.Some? ==> r.value < |head| && head[r.value].id == id
    ensures r.Some? ==> forall i :: 0 <= i < r.value ==> head[i].id != id
  {
    if head == [] then None
    else if head[0].id == id then Some(0)
    else match FindById(head[1..], id)
      case None => None
      case Some(k) => Some(k + 1)
  }

  /** The number of head elements carrying the id. */
  function IdCount(head: seq<Element>, id: string): nat
  {
    if head == [] then 0 else (if head[0].id == id then 1 else 0) + IdCount(head[1..], id)
  }

  /** The head after `injectStyle(doc, css)`: the found style element gets the text, or a new one is appended. */
  function Injected(head: seq<Element>, css: string): seq<Element>
  {
    match FindById(head, StyleId)
    case Some(k) => head[k := head[k].(text := css)]
    case None => head + [NewStyle(css)]
  }

  /** Where the style element sits after injection: where it was found, or at the end. */
  function StyleSlot(head: seq<Element>): nat
  {
    match FindById(head, StyleId)
    case Some(k) => k
    case None => |head|
  }

  /**
   * After injection the selector finds the style element holding `css`; every
   * other element is unchanged, and an element is appended exactly when the head
   * had no style element.
   */
  lemma InjectedSpec(head: seq<Element>, css: string)
    ensures var r := Injected(head, css);
      && FindById(r, StyleId) == Some(StyleSlot(head))
      && r[StyleSlot(head)].text == css
      && (|r| == |head| + 1 <==> FindById(head, StyleId).None?)
      && (|r| == |head| <==> FindById(head, StyleId).Some?)
      && forall i :: 0 <= i < |head| && i != StyleSlot(head) ==> r[i] == head[i]
  {
    var r := Injected(head, css);
    var k := StyleSlot(head);
    assert r[k].id == StyleId;
    assert forall i :: 0 <= i < k ==> r[i] == head[i];
  }

  /** Injecting twice leaves the head as the second injection alone would: the last css wins. */
  lemma InjectedLastWins(head: seq<Element>, css1: string, css2: string)
    ensures Injected(Injected(head, css1), css2) == Injected(head, css2)
  {
    InjectedSpec(head, css1);
  }

  /** `injectStyle` is idempotent, and a second call never appends a second element. */
  lemma InjectedIdempotent(head: seq<Element>, css: string)
    ensures Injected(Injected(head, css), css) == Injected(head, css)
    ensures |Injected(Injected(head, css), css)| == |Injected(head, css)|
  {
    InjectedLastWins(head, css, css);
  }

  lemma {:induction false} IdCountAppend(head: seq<Element>, e: Element, id: string)
    ensures IdCount(head + [e], id) == IdCount(head, id) + (if e.id == id then 1 else 0)
  {
    if head != [] {
      assert (head + [e])[1..] == head[1..] + [e];
      IdCountAppend(head[1..], e, id);
    } else {
      assert head + [e] == [e];
    }
  }

  lemma {:induction false} IdCountUpdate(head: seq<Element>, k: nat, e: Element, id: string)
    requires k < |head| && head[k].id == e.id
    ensures IdCount(head[k := e], id) == IdCount(head, id)
  {
    if k > 0 {
      assert head[k := e][1..] == head[1..][k - 1 := e];
      IdCountUpdate(head[1..], k - 1, e, id);
    }
  }

  lemma {:induction false} IdCountNone(head: seq<Element>, id: string)
    requires forall i :: 0 <= i < |head| ==> head[i].id != id
    ensures IdCount(head, id) == 0
  {
    if head != [] {
      IdCountNone(head[1..], id);
    }
  }

  /** A head with at most one style element holds exactly one after injection. */
  lemma InjectedSingleStyle(head: seq<Element>, css: string)
    requires IdCount(head, StyleId) <= 1
    ensures IdCount(Injected(head, css), StyleId) == 1
  {
    match FindById(head, StyleId)
    case Some(k) =>
      IdCountUpdate(head, k, head[k].(text := css), StyleId);
      if IdCount(head, StyleId) == 0 {
        IdCountZeroNoId(head, k);
      }
    case None =>
      IdCountNone(head, StyleId);
      IdCountAppend(head, NewStyle(css), StyleId);
  }

  lemma {:induction false} IdCountZeroNoId(head: seq<Element>, k: nat)
    requires k < |head| && head[k].id == StyleId
    ensures IdCount(head, StyleId) >= 1
  {
    if k > 0 {
      IdCountZeroNoId(head[1..], k - 1);
    }
  }

  // ---------------------------------------------------------------------------
  // Content hooks

  /** A registered content hook: it injects the css captured when it was registered. */
  datatype ContentHook = InjectStyleHook(css: string)

  /** A newly rendered document's head after the rendering library runs the hooks in registration order. */
  function HooksApplied(head: seq<Element>, hooks: seq<ContentHook>): seq<Element>
    decreases |hooks|
  {
    if hooks == [] then head else HooksApplied(Injected(head, hooks[0].css), hooks[1..])
  }

  /**
   * Hooks accumulate, yet a document rendered after any number of `applyStyles`
   * calls ends up as if only the most recent one had run.
   */
  lemma {:induction false} LatestHookWins(head: seq<Element>, hooks: seq<ContentHook>)
    requires hooks != []
    ensures HooksApplied(head, hooks) == Injected(head, hooks[|hooks| - 1].css)
    decreases |hooks|
  {
    if |hooks| > 1 {
      LatestHookWins(Injected(head, hooks[0].css), hooks[1..]);
      InjectedLastWins(head, hooks[0].css, hooks[|hooks| - 1].css);
    }
  }

  // ---------------------------------------------------------------------------
  // The stylesheet text

  function Digits(n: nat): string
  {
    if n < 10 then ["0123456789"[n]] else Digits(n / 10) + ["0123456789"[n % 10]]
  }

  function ZeroPad(s: string, width: nat): (r: string)
    ensures |r| >= width
    decreases width - |s|
  {
    if |s| >= width then s else ZeroPad("0" + s, width)
  }

  /** The digits of n with a decimal point placed k digits from the right. */
  function UnsignedText(n: nat, k: nat): string
  {
    if k == 0 then Digits(n)
    else
      var d := ZeroPad(Digits(n), k + 1);
      d[..|d| - k] + "." + d[|d| - k..]
  }

  /** The shortest decimal text of m * 10^-k, as JavaScript prints a number in ordinary range. */
  function NumberText(m: int, k: nat): string
    decreases k
  {
    if k > 0 && m % 10 == 0 then NumberText(m / 10, k - 1)
    else if m < 0 then "-" + UnsignedText(-m, k)
    else UnsignedText(m, k)
  }

  /** The text a template literal substitutes for a setting; a missing key reads as `undefined`. */
  function Show(s: Settings, key: string): string
  {
    if key !in s then "undefined"
    else match s[key]
      case Str(t) => t
      case Num(m, k) => NumberText(m, k)
  }

  const CssOpening: string := "\n            body {\n                font-family: "
  const CssAfterFamily: string := " !important;\n                font-size: "
  const CssAfterSize: string := "px !important;\n                line-height: "
  const CssClosing: string :=
    " !important;\n"
    + "                color: #0f172a !important;\n"
    + "                background: transparent !important;\n"
    + "                padding: 40px 5% !important;\n"
    + "                transition: all 0.3s ease !important;\n"
    + "            }\n"
    + "            a { color: #6366f1 !important; }\n"
    + "            img { max-width: 100% !important; height: auto !important; }\n"
    + "        "

  /** The css `applyStyles` builds from the current settings. */
  function Stylesheet(s: Settings): string
  {
    CssOpening + Show(s, "fontFamily") + CssAfterFamily + Show(s, "fontSize")
      + CssAfterSize + Show(s, "lineHeight") + CssClosing
  }

  /**
   * Only the font family, size and line height reach the injected css: settings
   * that agree on those three keys produce the same stylesheet, whatever their
   * width, theme or API key.
   */
  lemma StylesheetReadsTypography(s1: Settings, s2: Settings)
    requires forall key :: key in {"fontFamily", "fontSize", "lineHeight"} ==>
      (key in s1 <==> key in s2) && (key in s1 ==> s1[key] == s2[key])
    ensures Stylesheet(s1) == Stylesheet(s2)
  {
    assert Show(s1, "fontFamily") == Show(s2, "fontFamily");
    assert Show(s1, "fontSize") == Show(s2, "fontSize");
    assert Show(s1, "lineHeight") == Show(s2, "lineHeight");
  }

  /** The css for the defaults table: the serif family, 18px and a line height of 1.6. */
  lemma DefaultStylesheet()
    ensures Stylesheet(Defaults())
         == CssOpening + DefaultFontFamily + CssAfterFamily + "18" + CssAfterSize + "1.6" + CssClosing
  {
    assert Show(Defaults(), "fontSize") == "18";
    assert Show(Defaults(), "lineHeight") == "1.6";
  }

  /**
   * A stored mapping holding only fontSize, loaded without the defaults, prints
   * `undefined` for the font family and the line height.
   */
  lemma PartialStylesheet()
    ensures Stylesheet(map["fontSize" := Num(24, 0)])
         == CssOpening + "undefined" + CssAfterFamily + "24" + CssAfterSize + "undefined" + CssClosing
  {
    var s := map["fontSize" := Num(24, 0)];
    assert "fontFamily" !in s && "lineHeight" !in s;
    assert Show(s, "fontSize") == "24";
  }

  // ---------------------------------------------------------------------------
  // The objects of the rendering library and the UI

  /** A rendered document; only its head matters here. */
  class Document {
    var head: seq<Element>

    constructor (head: seq<Element>)
      ensures this.head == head
    {
      this.head := head;
    }
  }

  /** A view of the rendition; `contents` is null until the view has rendered. */
  class View {
    const contents: Document?

    constructor (contents: Document?)
      ensures this.contents == contents
    {
      this.contents := contents;
    }
  }

  /** The documents of the views that have contents. */
  function Docs(views: seq<View>): set<Document>
  {
    set i | 0 <= i < |views| && views[i].contents != null :: views[i].contents
  }

  class Rendition {
    const views: seq<View>
    const hasManager: bool
    var hooks: seq<ContentHook>
    var listensForSelection: bool

    constructor (views: seq<View>, hasManager: bool)
      ensures this.views == views && this.hasManager == hasManager
      ensures hooks == [] && !listensForSelection
    {
      this.views := views;
      this.hasManager := hasManager;
      hooks := [];
      listensForSelection := false;
    }
  }

  class Book {
    const data: seq<bv8>
    var destroyed: bool

    constructor (data: seq<bv8>)
      ensures this.data == data && !destroyed
    {
      this.data := data;
      destroyed := false;
    }

    method Destroy()
      modifies this
      ensures destroyed
    {
      destroyed := true;
    }
  }

  datatype TocEntry = TocEntry(title: string, href: string)

  /** The UI operations the reader calls. */
  datatype UiCall =
    | ShowLoading
    | HideLoading
    | ShowError(message: string)
    | UpdateToc(toc: seq<TocEntry>)
    | ShowSelectionMenu(request: MenuRequest)
    | HideSelectionMenu

  /** The UI manager, seen through the calls it receives. */
  class Ui {
    var calls: seq<UiCall>

    constructor ()
      ensures calls == []
    {
      calls := [];
    }

    method Call(c: UiCall)
      modifies this
      ensures calls == old(calls) + [c]
    {
      calls := calls + [c];
    }
  }

  const LoadError: string := "Failed to load EPUB file."

  /** Which step of loading throws, if any. */
  datatype LoadOutcome =
    | OpenFails
    | RenderFails
    | DisplayFails
    | NavigationFails
    | Loaded(toc: seq<TocEntry>)

  // ---------------------------------------------------------------------------
  // EpubReader

  class EpubReader {
    const settingsManager: SettingsManager
    const ui: Ui
    var book: Book?
    var rendition: Rendition?

    /** Subscribes `applyStyles` (the handle `listener`) to setting changes. */
    constructor (settingsManager: SettingsManager, ui: Ui, listener: ListenerId)
      requires settingsManager.Valid()
      modifies settingsManager
      ensures this.settingsManager == settingsManager && this.ui == ui
      ensures book == null && rendition == null
      ensures settingsManager.Valid()
      ensures settingsManager.listeners == old(settingsManager.listeners) + [listener]
      ensures settingsManager.settings == old(settingsManager.settings)
    {
      this.settingsManager := settingsManager;
      this.ui := ui;
      book := null;
      rendition := null;
      new;
      settingsManager.Subscribe(listener);
    }

    /** The documents `applyStyles` may restyle: those of the current rendition's views. */
    function RenditionDocs(): set<Document>
      reads this
    {
      if rendition == null then {} else Docs(rendition.views)
    }

    /** The `selected` handler: shows the menu for a non-blank selection, and does nothing otherwise. */
    method OnSelected(rangeText: string, rect: Rect, frame: Rect)
      modifies ui
      ensures AllWhiteSpace(rangeText) ==> ui.calls == old(ui.calls)
      ensures !AllWhiteSpace(rangeText) ==>
        ui.calls == old(ui.calls) + [ShowSelectionMenu(SelectionMenu(rangeText, rect, frame).value)]
    {
      ghost var menu := SelectionMenu(rangeText, rect, frame);
      var text := Trim(rangeText);
      if text != [] {
        var x := rect.left + frame.left + (rect.width / 2.0) - 75.0;
        var y := rect.top + frame.top - 50.0;
        assert menu == Some(MenuRequest(x, y, text));
        ui.Call(ShowSelectionMenu(MenuRequest(x, y, text)));
      }
    }

    /** The content click listener: hides the menu unless a non-collapsed selection remains. */
    method OnContentClick(selection: Option<DomSelection>)
      modifies ui
      ensures selection.Some? && !selection.value.isCollapsed ==> ui.calls == old(ui.calls)
      ensures selection.None? || selection.value.isCollapsed ==> ui.calls == old(ui.calls) + [HideSelectionMenu]
    {
      if selection.None? || selection.value.isCollapsed {
        ui.Call(HideSelectionMenu);
      }
    }

    /** Finds the head's style element, creating and appending it if missing, then sets its text. */
    method InjectStyle(doc: Document, css: string)
      modifies doc
      ensures doc.head == Injected(old(doc.head), css)
    {
      var style := FindById(doc.head, StyleId);
      if style.None? {
        doc.head := doc.head + [Element("style", StyleId, "")];
        style := Some(|doc.head| - 1);
      }
      doc.head := doc.head[style.value := doc.head[style.value].(text := css)];
    }

    /**
     * Without a rendition, does nothing. Otherwise registers one more content
     * hook carrying the css of the current settings, keeping the earlier ones,
     * and, when the rendition has a view manager, injects that css into every
     * view that has contents.
     */
    method ApplyStyles()
      modifies rendition, RenditionDocs()
      ensures rendition == old(rendition)
      ensures rendition != null ==> rendition.listensForSelection == old(rendition.listensForSelection)
      ensures rendition != null ==>
        rendition.hooks == old(rendition.hooks) + [InjectStyleHook(Stylesheet(settingsManager.settings))]
      ensures rendition != null && rendition.hasManager ==>
        forall j :: 0 <= j < |rendition.views| && rendition.views[j].contents != null ==>
          rendition.views[j].contents.head == Injected(old(rendition.views[j].contents.head), Stylesheet(settingsManager.settings))
      ensures rendition != null && !rendition.hasManager ==>
        forall j :: 0 <= j < |rendition.views| && rendition.views[j].contents != null ==>
          rendition.views[j].contents.head == old(rendition.views[j].contents.head)
    {
      if rendition == null {
        return;
      }
      var settings := settingsManager.Get();
      var css := Stylesheet(settings);
      rendition.hooks := rendition.hooks + [InjectStyleHook(css)];
      if rendition.hasManager {
        InjectIntoViews(rendition.views, css);
      }
    }

    /**
     * Injects `css` into the document of each view that has contents, in view
     * order. A document shared by several views ends up injected once over,
     * since injection is idempotent.
     */
    method InjectIntoViews(views: seq<View>, css: string)
      modifies Docs(views)
      ensures forall j :: 0 <= j < |views| && views[j].contents != null ==>
        views[j].contents.head == Injected(old(views[j].contents.head), css)
    {
      ghost var done: set<Document> := {};
      var i := 0;
      while i < |views|
        invariant 0 <= i <= |views|
        invariant forall j :: 0 <= j < i && views[j].contents != null ==> views[j].contents in done
        invariant forall j :: 0 <= j < |views| && views[j].contents != null ==>
          views[j].contents.head ==
            (if views[j].contents in done then Injected(old(views[j].contents.head), css) else old(views[j].contents.head))
      {
        var doc := views[i].contents;
        if doc != null {
          assert doc in Docs(views);
          if doc in done {
            InjectedIdempotent(old(doc.head), css);
          }
          assert doc.head == if doc in done then Injected(old(doc.head), css) else old(doc.head);
          InjectStyle(doc, css);
          assert doc.head == Injected(old(doc.head), css);
          done := done + {doc};
        }
        i := i + 1;
      }
    }

    /**
     * Shows the loading state and destroys any previous book, then builds the
     * new book and rendition step by step; a step that throws leaves the fields
     * as far as they got and reports the load error. A complete load lists the
     * contents, applies the styles and hides the loading state.
     */
    method Load(data: seq<bv8>, outcome: LoadOutcome, views: seq<View>, hasManager: bool)
      modifies this, ui, book, Docs(views)
      ensures old(book) != null ==> old(book).destroyed
      ensures outcome == OpenFails ==> book == old(book) && rendition == old(rendition)
      ensures outcome != OpenFails ==> book != null && fresh(book) && book.data == data && !book.destroyed
      ensures outcome == RenderFails ==> rendition == old(rendition)
      ensures !outcome.OpenFails? && !outcome.RenderFails? ==>
        && rendition != null && fresh(rendition)
        && rendition.views == views && rendition.hasManager == hasManager && rendition.listensForSelection
      ensures outcome.DisplayFails? || outcome.NavigationFails? ==> rendition.hooks == []
      ensures !outcome.Loaded? ==> ui.calls == old(ui.calls) + [ShowLoading, ShowError(LoadError)]
      ensures outcome.Loaded? ==>
        && ui.calls == old(ui.calls) + [ShowLoading, UpdateToc(outcome.toc), HideLoading]
        && rendition.hooks == [InjectStyleHook(Stylesheet(settingsManager.settings))]
      ensures outcome.Loaded? && hasManager ==>
        forall j :: 0 <= j < |views| && views[j].contents != null ==>
          views[j].contents.head == Injected(old(views[j].contents.head), Stylesheet(settingsManager.settings))
      ensures !(outcome.Loaded? && hasManager) ==> forall j :: 0 <= j < |views| && views[j].contents != null ==>
          views[j].contents.head == old(views[j].contents.head)
    {
      ui.Call(ShowLoading);
      if book != null {
        book.Destroy();
      }
      OpenBook(data, outcome, views, hasManager);
    }

    /** The guarded part of `load`: open the book, render it, display it, then show it. */
    method OpenBook(data: seq<bv8>, outcome: LoadOutcome, views: seq<View>, hasManager: bool)
      modifies this, ui, Docs(views)
      ensures outcome == OpenFails ==> book == old(book) && rendition == old(rendition)
      ensures outcome != OpenFails ==> book != null && fresh(book) && book.data == data && !book.destroyed
      ensures outcome == RenderFails ==> rendition == old(rendition)
      ensures !outcome.OpenFails? && !outcome.RenderFails? ==>
        && rendition != null && fresh(rendition)
        && rendition.views == views && rendition.hasManager == hasManager && rendition.listensForSelection
      ensures outcome.DisplayFails? || outcome.NavigationFails? ==> rendition.hooks == []
      ensures !outcome.Loaded? ==> ui.calls == old(ui.calls) + [ShowError(LoadError)]
      ensures outcome.Loaded? ==>
        && ui.calls == old(ui.calls) + [UpdateToc(outcome.toc), HideLoading]
        && rendition.hooks == [InjectStyleHook(Stylesheet(settingsManager.settings))]
      ensures outcome.Loaded? && hasManager ==>
        forall j :: 0 <= j < |views| && views[j].contents != null ==>
          views[j].contents.head == Injected(old(views[j].contents.head), Stylesheet(settingsManager.settings))
      ensures !(outcome.Loaded? && hasManager) ==> forall j :: 0 <= j < |views| && views[j].contents != null ==>
          views[j].contents.head == old(views[j].contents.head)
    {
      if outcome == OpenFails {
        ui.Call(ShowError(LoadError));
        return;
      }
      book := new Book(data);
      if outcome == RenderFails {
        ui.Call(ShowError(LoadError));
        return;
      }
      rendition := new Rendition(views, hasManager);
      rendition.listensForSelection := true;
      if !outcome.Loaded? {
        ui.Call(ShowError(LoadError));
        return;
      }
      ShowBook(outcome.toc);
    }

    /** The end of a complete load: list the contents, apply the styles, hide the loading state. */
    method ShowBook(toc: seq<TocEntry>)
      requires rendition != null
      modifies ui, rendition, RenditionDocs()
      ensures rendition == old(rendition)
      ensures rendition.listensForSelection == old(rendition.listensForSelection)
      ensures ui.calls == old(ui.calls) + [UpdateToc(toc), HideLoading]
      ensures rendition.hooks == old(rendition.hooks) + [InjectStyleHook(Stylesheet(settingsManager.settings))]
      ensures rendition.hasManager ==>
        forall j :: 0 <= j < |rendition.views| && rendition.views[j].contents != null ==>
          rendition.views[j].contents.head == Injected(old(rendition.views[j].contents.head), Stylesheet(settingsManager.settings))
      ensures !rendition.hasManager ==> forall j :: 0 <= j < |rendition.views| && rendition.views[j].contents != null ==>
          rendition.views[j].contents.head == old(rendition.views[j].contents.head)
    {
      ui.Call(UpdateToc(toc));
      ApplyStyles();
      ui.Call(HideLoading);
    }
  }
}
