/** The script itself: its module-level variables as the fields of a
    `Script` object, which every handler updates in place, and the part of
    the host page it reads and writes as a `Page` object, and local and
    session storage as `Storage` objects holding a map from key to text. */
module WideScreen {
  import opened JsValues
  import opened RowBounds
  import opened Preferences
  import opened Styles
  import opened Injection

  /** The host page as far as the script touches it. */
  class Page {
    /** The `maxWidth` inline style of each layout container. */
    var layout: array<string>
    /** The inline style of each `rich-textarea .ql-editor`. */
    var editors: array<EditorStyle>
    /** `--textarea-max-rows` and `--textarea-min-rows` on the root element. */
    var rootMaxRows: int
    var rootMinRows: int
    /** The text of the toggle's icon (`#wide_screen_image`), meaningful
        while a toggle is in the page. */
    var iconText: string

    var topAnchor: bool
    var bottomAnchor: bool
    var togglesInTop: nat
    var upInsideBottom: nat
    var downInsideBottom: nat
    var upAfterBottom: nat
    var downAfterBottom: nat
    var readyState: string

    /** A host page the script has not touched yet. */
    constructor (readyState: string, topAnchor: bool, bottomAnchor: bool,
                 upInsideBottom: nat, downInsideBottom: nat, containers: nat, editorCount: nat)
      ensures Snapshot() == Controls(topAnchor, bottomAnchor, 0, upInsideBottom, downInsideBottom, 0, 0, readyState)
      ensures fresh(layout) && fresh(editors) && layout.Length == containers && editors.Length == editorCount
    {
      this.layout := new string[containers](_ => "");
      this.editors := new EditorStyle[editorCount](_ => EditorStyle(0, "", ""));
      this.rootMaxRows, this.rootMinRows := 0, 0;
      this.iconText := "";
      this.topAnchor, this.bottomAnchor := topAnchor, bottomAnchor;
      this.togglesInTop, this.upAfterBottom, this.downAfterBottom := 0, 0, 0;
      this.upInsideBottom, this.downInsideBottom := upInsideBottom, downInsideBottom;
      this.readyState := readyState;
    }

    /** What the injection guard sees of the page. */
    function Snapshot(): Controls
      reads this
    {
      Controls(topAnchor, bottomAnchor, togglesInTop, upInsideBottom, downInsideBottom,
               upAfterBottom, downAfterBottom, readyState)
    }
  }

  /** A Web Storage area (`localStorage` or `sessionStorage`). */
  class Storage {
    var items: map<string, string>

    constructor (items: map<string, string>)
      ensures this.items == items
    {
      this.items := items;
    }
  }

  class Script {
    const page: Page
    var wideModeEnabled: bool
    var maxRowsWide: int
    var minRowsWide: int
    var minRowsNormal: int
    var maxRowsNormal: int
    var buttonCreated: bool
    /** `setTimeout(createToggleButton, 100)` calls not yet run. */
    var pendingRetries: nat
    const localStorage: Storage
    const sessionStorage: Storage

    /** The two storage areas are distinct objects. */
    predicate Valid()
    {
      localStorage != sessionStorage
    }

    /** The script's start: the flag from local storage, the bounds from
        session storage, no controls created. */
    constructor (page: Page, local: Storage, session: Storage)
      requires local != session
      ensures Valid()
      ensures this.page == page && localStorage == local && sessionStorage == session
      ensures wideModeEnabled == LoadWideMode(GetItem(local.items, WideModeKey))
      ensures Bounds() == LoadRows(session.items)
      ensures !buttonCreated && pendingRetries == 0
    {
      this.page := page;
      localStorage, sessionStorage := local, session;
      wideModeEnabled := LoadWideMode(GetItem(local.items, WideModeKey));
      var rows := LoadRows(session.items);
      maxRowsWide, minRowsWide := rows.maxRowsWide, rows.minRowsWide;
      minRowsNormal, maxRowsNormal := rows.minRowsNormal, rows.maxRowsNormal;
      buttonCreated, pendingRetries := false, 0;
    }

    function Bounds(): Rows
      reads this
    {
      Rows(maxRowsWide, minRowsWide, minRowsNormal, maxRowsNormal)
    }

    function GuardState(): Guard
      reads this, page
    {
      Guard(page.Snapshot(), buttonCreated, pendingRetries)
    }

    /** The page shows the current mode and bounds: every container, the
        root element and every editor carry the values `resizeStuff`
        derives from them. */
    ghost predicate Styled()
      reads this, page, page.layout, page.editors
    {
      var v := Resized(wideModeEnabled, Bounds());
      && (forall k :: 0 <= k < page.layout.Length ==> page.layout[k] == v.maxWidth)
      && page.rootMaxRows == v.maxRows && page.rootMinRows == v.minRows
      && (forall k :: 0 <= k < page.editors.Length ==> page.editors[k] == EditorStyleFor(wideModeEnabled, Bounds()))
    }

    /** `resizeStuff`: writes the derived values into every matched
        element and the root element; nothing else changes. */
    method ResizeStuff()
      modifies page, page.layout, page.editors
      ensures Styled()
      ensures page.layout == old(page.layout) && page.editors == old(page.editors)
      ensures page.Snapshot() == old(page.Snapshot()) && page.iconText == old(page.iconText)
    {
      var v := Resized(wideModeEnabled, Bounds());
      var layout := page.layout;
      var i := 0;
      while i < layout.Length
        invariant 0 <= i <= layout.Length
        invariant forall k :: 0 <= k < i ==> layout[k] == v.maxWidth
        modifies layout
      {
        layout[i] := v.maxWidth;
        i := i + 1;
      }
      page.rootMaxRows := v.maxRows;
      page.rootMinRows := v.minRows;
      var editors := page.editors;
      var style := EditorStyleFor(wideModeEnabled, Bounds());
      var j := 0;
      while j < editors.Length
        invariant 0 <= j <= editors.Length
        invariant forall k :: 0 <= k < j ==> editors[k] == style
        modifies editors
      {
        editors[j] := style;
        j := j + 1;
      }
    }

    /** `updateButtonIcon`: the icon shows the mode when a toggle is in the
        page, and the flag is saved as "true" or "false". */
    method UpdateButtonIcon()
      requires Valid()
      modifies page, localStorage
      ensures page.iconText == if page.togglesInTop > 0 then IconFor(wideModeEnabled) else old(page.iconText)
      ensures localStorage.items == SaveWideMode(old(localStorage.items), wideModeEnabled)
      ensures wideModeEnabled == old(wideModeEnabled) && Bounds() == old(Bounds()) && sessionStorage.items == old(sessionStorage.items)
      ensures GuardState() == old(GuardState())
      ensures page.layout == old(page.layout) && page.editors == old(page.editors)
      ensures page.rootMaxRows == old(page.rootMaxRows) && page.rootMinRows == old(page.rootMinRows)
    {
      if page.togglesInTop > 0 {
        page.iconText := if wideModeEnabled then "remove" else "add";
      }
      localStorage.items := localStorage.items[WideModeKey := BoolToString(wideModeEnabled)];
    }

    /** `toggleWideMode`: flips the flag, restyles the page and refreshes
        the icon, which saves the new flag; the bounds stay as they are. */
    method ToggleWideMode()
      requires Valid()
      modifies this, page, page.layout, page.editors, localStorage
      ensures wideModeEnabled == !old(wideModeEnabled)
      ensures Bounds() == old(Bounds()) && sessionStorage.items == old(sessionStorage.items)
      ensures localStorage.items == SaveWideMode(old(localStorage.items), wideModeEnabled)
      ensures page.iconText == if page.togglesInTop > 0 then IconFor(wideModeEnabled) else old(page.iconText)
      ensures GuardState() == old(GuardState())
      ensures page.layout == old(page.layout) && page.editors == old(page.editors)
      ensures Styled()
    {
      wideModeEnabled := !wideModeEnabled;
      ResizeStuff();
      UpdateButtonIcon();
    }

    /** `windowSizeUp`, with `expanded` standing for a `.pre-fullscreen`
        element being present: one more row on the targeted bound, which
        alone is saved. */
    method WindowSizeUp(expanded: bool)
      requires Valid()
      modifies this, page, page.layout, page.editors, sessionStorage
      ensures var t := TargetOf(expanded, wideModeEnabled);
              && Bounds() == Up(old(Bounds()), t)
              && sessionStorage.items == SaveRowBound(old(sessionStorage.items), t, Get(Bounds(), t))
      ensures wideModeEnabled == old(wideModeEnabled) && localStorage.items == old(localStorage.items)
      ensures GuardState() == old(GuardState()) && page.iconText == old(page.iconText)
      ensures page.layout == old(page.layout) && page.editors == old(page.editors)
      ensures Styled()
    {
      if expanded && wideModeEnabled {
        maxRowsWide := maxRowsWide + 1;
        sessionStorage.items := sessionStorage.items["maxRowsWide" := NumberToString(maxRowsWide)];
      } else if expanded && !wideModeEnabled {
        maxRowsNormal := maxRowsNormal + 1;
        sessionStorage.items := sessionStorage.items["maxRowsNormal" := NumberToString(maxRowsNormal)];
      } else if !wideModeEnabled {
        minRowsNormal := minRowsNormal + 1;
        sessionStorage.items := sessionStorage.items["minRowsNormal" := NumberToString(minRowsNormal)];
      } else {
        minRowsWide := minRowsWide + 1;
        sessionStorage.items := sessionStorage.items["minRowsWide" := NumberToString(minRowsWide)];
      }
      ResizeStuff();
    }

    /** `windowSizeDown`: the targeted bound goes one row down but not
        below its floor, and alone is saved. */
    method WindowSizeDown(expanded: bool)
      requires Valid()
      modifies this, page, page.layout, page.editors, sessionStorage
      ensures var t := TargetOf(expanded, wideModeEnabled);
              && Bounds() == Down(old(Bounds()), t)
              && sessionStorage.items == SaveRowBound(old(sessionStorage.items), t, Get(Bounds(), t))
      ensures wideModeEnabled == old(wideModeEnabled) && localStorage.items == old(localStorage.items)
      ensures GuardState() == old(GuardState()) && page.iconText == old(page.iconText)
      ensures page.layout == old(page.layout) && page.editors == old(page.editors)
      ensures Styled()
    {
      if expanded && wideModeEnabled {
        maxRowsWide := Max(minRowsWide, maxRowsWide - 1);
        sessionStorage.items := sessionStorage.items["maxRowsWide" := NumberToString(maxRowsWide)];
      } else if expanded && !wideModeEnabled {
        maxRowsNormal := Max(minRowsNormal, maxRowsNormal - 1);
        sessionStorage.items := sessionStorage.items["maxRowsNormal" := NumberToString(maxRowsNormal)];
      } else if !wideModeEnabled {
        minRowsNormal := Max(1, minRowsNormal - 1);
        sessionStorage.items := sessionStorage.items["minRowsNormal" := NumberToString(minRowsNormal)];
      } else {
        minRowsWide := Max(1, minRowsWide - 1);
        sessionStorage.items := sessionStorage.items["minRowsWide" := NumberToString(minRowsWide)];
      }
      ResizeStuff();
    }

    /** `createToggleButton`: the guard's step on the page; a new toggle's
        icon starts out empty. */
    method CreateToggleButton()
      modifies this, page
      ensures GuardState() == CreateStep(old(GuardState()))
      ensures page.iconText == if Creates(old(GuardState())) then "" else old(page.iconText)
      ensures wideModeEnabled == old(wideModeEnabled) && Bounds() == old(Bounds())
      ensures localStorage.items == old(localStorage.items) && sessionStorage.items == old(sessionStorage.items)
      ensures page.layout == old(page.layout) && page.editors == old(page.editors)
      ensures page.rootMaxRows == old(page.rootMaxRows) && page.rootMinRows == old(page.rootMinRows)
    {
      if !page.bottomAnchor || !page.topAnchor {
        pendingRetries := pendingRetries + 1;
        return;
      }
      if page.togglesInTop > 0 || page.upInsideBottom > 0 || page.downInsideBottom > 0 {
        return;
      }
      page.togglesInTop := page.togglesInTop + 1;
      page.iconText := "";
      page.upAfterBottom := page.upAfterBottom + 1;
      page.downAfterBottom := page.downAfterBottom + 1;
      buttonCreated := true;
    }

    /** `checkIfPageReadyForButton`. */
    method CheckIfPageReadyForButton()
      modifies this, page
      ensures GuardState() == CheckStep(old(GuardState()))
      ensures page.iconText == if CheckStep(old(GuardState())) != old(GuardState()) && Creates(old(GuardState()))
                               then "" else old(page.iconText)
      ensures wideModeEnabled == old(wideModeEnabled) && Bounds() == old(Bounds())
      ensures localStorage.items == old(localStorage.items) && sessionStorage.items == old(sessionStorage.items)
      ensures page.layout == old(page.layout) && page.editors == old(page.editors)
      ensures page.rootMaxRows == old(page.rootMaxRows) && page.rootMinRows == old(page.rootMinRows)
    {
      if page.readyState == "complete" && !buttonCreated {
        CreateToggleButton();
      }
    }

    /** The mutation observer callback: the guard's check, then the icon
        (saving the flag), then the styles. */
    method MutationObserverCallback()
      requires Valid()
      modifies this, page, page.layout, page.editors, localStorage
      ensures GuardState() == CheckStep(old(GuardState()))
      ensures page.iconText == if page.togglesInTop > 0 then IconFor(wideModeEnabled) else old(page.iconText)
      ensures wideModeEnabled == old(wideModeEnabled) && Bounds() == old(Bounds())
      ensures localStorage.items == SaveWideMode(old(localStorage.items), wideModeEnabled) && sessionStorage.items == old(sessionStorage.items)
      ensures page.layout == old(page.layout) && page.editors == old(page.editors)
      ensures Styled()
    {
      CheckIfPageReadyForButton();
      UpdateButtonIcon();
      ResizeStuff();
    }

    /** A scheduled retry running: `createToggleButton` again, without the
        `buttonCreated` test. */
    method RetryFires()
      requires pendingRetries > 0
      modifies this, page
      ensures GuardState() == Apply(old(GuardState()), Injection.RetryFires)
      ensures page.iconText == if Creates(old(GuardState())) then "" else old(page.iconText)
      ensures page.rootMaxRows == old(page.rootMaxRows) && page.rootMinRows == old(page.rootMinRows)
      ensures wideModeEnabled == old(wideModeEnabled) && Bounds() == old(Bounds())
      ensures localStorage.items == old(localStorage.items) && sessionStorage.items == old(sessionStorage.items)
      ensures page.layout == old(page.layout) && page.editors == old(page.editors)
    {
      pendingRetries := pendingRetries - 1;
      CreateToggleButton();
    }
  }

  /** The script's top level: the preferences are read, then the page is
      checked once before the observer is attached. */
  method Start(page: Page, local: Storage, session: Storage) returns (s: Script)
    requires local != session
    modifies page
    ensures s.Valid() && s.page == page && s.localStorage == local && s.sessionStorage == session
    ensures s.wideModeEnabled == LoadWideMode(GetItem(local.items, WideModeKey))
    ensures s.Bounds() == LoadRows(session.items)
    ensures fresh(s)
    ensures var g := Guard(old(page.Snapshot()), false, 0);
            && s.GuardState() == CheckStep(g)
            && page.iconText == if CheckStep(g) != g && Creates(g) then "" else old(page.iconText)
    ensures page.layout == old(page.layout) && page.editors == old(page.editors)
    ensures page.rootMaxRows == old(page.rootMaxRows) && page.rootMinRows == old(page.rootMinRows)
  {
    s := new Script(page, local, session);
    s.CheckIfPageReadyForButton();
  }
}
