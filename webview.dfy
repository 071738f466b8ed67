/**
 * The input decisions of RSS Guard's embedded web view (src/network-web/webview.cpp):
 * the middle-button gesture resolver, the ctrl+left-click rule, the context-menu
 * contents and the reaction to a finished page load.
 *
 * Toolkit calls are inputs and outputs: the hit-test result at the event position and
 * the gestures setting are parameters, and the navigation calls, the signals and the
 * forwarding of an event to the base widget are appended to the view's `log`.
 * A QUrl is `Some(text)` when it is valid and `None` otherwise.
 */
module Web {
  import opened Wrappers

  datatype Point = Point(x: int, y: int)

  // ---------------------------------------------------------------------------
  // Gesture resolution

  /** The four gesture actions: back(), forward(), reload() and the newTabRequested signal. */
  datatype Gesture = Back | Forward | Reload | NewTab

  /** The least displacement that counts as a gesture. */
  const GestureFloor: int := 40

  /** The position of each action in the order in which the resolver tests them. */
  function Rank(g: Gesture): nat {
    match g
    case Back => 0
    case Forward => 1
    case Reload => 2
    case NewTab => 3
  }

  /** How far the pointer moved in the direction of `g`: left, right, up or down. */
  function Displacement(g: Gesture, origin: Point, release: Point): int {
    match g
    case Back => origin.x - release.x
    case Forward => release.x - origin.x
    case Reload => origin.y - release.y
    case NewTab => release.y - origin.y
  }

  /** `qMax`. */
  function Max(a: int, b: int): int {
    if a < b then b else a
  }

  /** The largest of the four displacements. */
  function MaxDisplacement(origin: Point, release: Point): (m: int)
    ensures forall g :: Displacement(g, origin, release) <= m
    ensures exists g :: Displacement(g, origin, release) == m
  {
    Max(Max(Displacement(Back, origin, release), Displacement(Forward, origin, release)),
        Max(Displacement(Reload, origin, release), Displacement(NewTab, origin, release)))
  }

  /**
   * The action a middle-button drag from `origin` to `release` requests: none when every
   * displacement stays below the floor, otherwise the one whose displacement is the
   * largest, ties going to the first in the order Back, Forward, Reload, NewTab.
   */
  function ResolveGesture(origin: Point, release: Point): (r: Option<Gesture>)
    ensures r.None? <==> MaxDisplacement(origin, release) < GestureFloor
    ensures r.Some? ==> Displacement(r.value, origin, release) == MaxDisplacement(origin, release)
    ensures r.Some? ==> forall g :: Rank(g) < Rank(r.value) ==>
      Displacement(g, origin, release) < Displacement(r.value, origin, release)
  {
    var leftMove := origin.x - release.x;
    var rightMove := -leftMove;
    var topMove := origin.y - release.y;
    var bottomMove := -topMove;
    var totalMax := Max(Max(Max(leftMove, rightMove), Max(topMove, bottomMove)), GestureFloor);
    if totalMax == leftMove then Some(Back)
    else if totalMax == rightMove then Some(Forward)
    else if totalMax == topMove then Some(Reload)
    else if totalMax == bottomMove then Some(NewTab)
    else None
  }

  /** The first action, in resolver order, that reaches the largest displacement. */
  function FirstAtMaximum(origin: Point, release: Point, order: seq<Gesture>): Option<Gesture> {
    if order == [] then None
    else if Displacement(order[0], origin, release) == MaxDisplacement(origin, release) then Some(order[0])
    else FirstAtMaximum(origin, release, order[1..])
  }

  /**
   * The resolver agrees with the plain reading of its rule: no action below the floor,
   * otherwise the first action in the order Back, Forward, Reload, NewTab whose
   * displacement is the largest.
   */
  lemma ResolveGestureIsFirstAtMaximum(origin: Point, release: Point)
    ensures ResolveGesture(origin, release) ==
      if MaxDisplacement(origin, release) < GestureFloor then None
      else FirstAtMaximum(origin, release, [Back, Forward, Reload, NewTab])
  {
    var m := MaxDisplacement(origin, release);
    var order := [Back, Forward, Reload, NewTab];
    assert order[1..] == [Forward, Reload, NewTab];
    assert order[1..][1..] == [Reload, NewTab];
    assert order[1..][1..][1..] == [NewTab];
    assert FirstAtMaximum(origin, release, [NewTab]) ==
      if Displacement(NewTab, origin, release) == m then Some(NewTab) else None;
    assert FirstAtMaximum(origin, release, [Reload, NewTab]) ==
      if Displacement(Reload, origin, release) == m then Some(Reload)
      else FirstAtMaximum(origin, release, [NewTab]);
    assert FirstAtMaximum(origin, release, [Forward, Reload, NewTab]) ==
      if Displacement(Forward, origin, release) == m then Some(Forward)
      else FirstAtMaximum(origin, release, [Reload, NewTab]);
  }

  /** The four cases of the resolver worked out on concrete drags. */
  lemma GestureExamples()
    ensures ResolveGesture(Point(100, 100), Point(100, 40)) == Some(Reload)
    ensures ResolveGesture(Point(100, 100), Point(160, 100)) == Some(Forward)
    ensures ResolveGesture(Point(0, 0), Point(0, 0)) == None
    ensures ResolveGesture(Point(0, 0), Point(39, -39)) == None
    ensures ResolveGesture(Point(50, 50), Point(0, 0)) == Some(Back)
    ensures ResolveGesture(Point(0, 0), Point(0, 40)) == Some(NewTab)
  {
  }

  // ---------------------------------------------------------------------------
  // Context menu

  datatype MenuAction =
    | Print | ReloadPage | CopySelection | SavePageAs
    | OpenLinkThisTab | OpenLinkNewTab | OpenLinkExternally | CopyLink
    | OpenImageNewTab | CopyImageUrl | CopyImage

  datatype SubmenuKind = HyperlinkMenu | ImageMenu

  datatype MenuEntry = Item(action: MenuAction) | Submenu(kind: SubmenuKind, actions: seq<MenuAction>)

  /** What the engine's hit test reports at the cursor. */
  datatype HitTest = HitTest(linkUrl: Option<string>, imageUrl: Option<string>, hasPixmap: bool)

  /**
   * INTERNAL_URL_EMPTY, INTERNAL_URL_BLANK and INTERNAL_URL_NEWSPAPER, whose definitions
   * are not part of this model.
   */
  datatype InternalUrls = InternalUrls(empty: string, blank: string, newspaper: string)

  /** The page can be printed: it has a URL and it is not one of the two empty pages. */
  predicate Printable(url: string, internal: InternalUrls) {
    url != [] && url != internal.empty && url != internal.blank
  }

  const LinkActions: seq<MenuAction> := [OpenLinkThisTab, OpenLinkNewTab, OpenLinkExternally, CopyLink]

  function ImageActions(hit: HitTest): seq<MenuAction> {
    (if hit.imageUrl.Some? then [OpenImageNewTab, CopyImageUrl] else []) + [CopyImage]
  }

  /** Printing and, except on the newspaper page, reloading. */
  function PageEntries(url: string, internal: InternalUrls): seq<MenuEntry> {
    if Printable(url, internal) then
      [Item(Print)] + (if url != internal.newspaper then [Item(ReloadPage)] else [])
    else []
  }

  const EditEntries: seq<MenuEntry> := [Item(CopySelection), Item(SavePageAs)]

  function LinkEntries(hit: HitTest): seq<MenuEntry> {
    if hit.linkUrl.Some? then [Submenu(HyperlinkMenu, LinkActions)] else []
  }

  function ImageEntries(hit: HitTest): seq<MenuEntry> {
    if hit.hasPixmap then [Submenu(ImageMenu, ImageActions(hit))] else []
  }

  /** The entries of the context menu for the page at `url` and the hit test `hit`. */
  function ContextMenu(url: string, hit: HitTest, internal: InternalUrls): seq<MenuEntry> {
    PageEntries(url, internal) + EditEntries + LinkEntries(hit) + ImageEntries(hit)
  }

  /** No entry occurs twice in `s`. */
  predicate Distinct<T(==)>(s: seq<T>) {
    forall i, j :: 0 <= i < j < |s| ==> s[i] != s[j]
  }

  lemma DistinctConcat<T>(a: seq<T>, b: seq<T>)
    requires Distinct(a) && Distinct(b)
    requires forall e :: e in a ==> e !in b
    ensures Distinct(a + b)
  {
    forall i, j | 0 <= i < j < |a + b|
      ensures (a + b)[i] != (a + b)[j]
    {
      if j >= |a| && i < |a| {
        assert (a + b)[i] in a && (a + b)[j] in b;
      }
    }
  }

  /** Print exactly on a printable page, Reload exactly on a printable page other than the newspaper, each once, and nothing else. */
  lemma PageEntriesRule(url: string, internal: InternalUrls)
    ensures Item(Print) in PageEntries(url, internal) <==> Printable(url, internal)
    ensures Item(ReloadPage) in PageEntries(url, internal) <==> Printable(url, internal) && url != internal.newspaper
    ensures forall e :: e in PageEntries(url, internal) ==> e == Item(Print) || e == Item(ReloadPage)
    ensures |PageEntries(url, internal)| ==
      if !Printable(url, internal) then 0 else if url == internal.newspaper then 1 else 2
    ensures Distinct(PageEntries(url, internal))
  {
  }

  /** The hyperlink submenu, once, exactly for a valid link, and nothing else. */
  lemma LinkEntriesRule(hit: HitTest)
    ensures forall e :: e in LinkEntries(hit) ==> e == Submenu(HyperlinkMenu, LinkActions)
    ensures Submenu(HyperlinkMenu, LinkActions) in LinkEntries(hit) <==> hit.linkUrl.Some?
    ensures |LinkEntries(hit)| == if hit.linkUrl.Some? then 1 else 0
  {
  }

  /** The image submenu, once, exactly for a non-null pixmap, and nothing else. */
  lemma ImageEntriesRule(hit: HitTest)
    ensures forall e :: e in ImageEntries(hit) ==> e == Submenu(ImageMenu, ImageActions(hit))
    ensures Submenu(ImageMenu, ImageActions(hit)) in ImageEntries(hit) <==> hit.hasPixmap
    ensures |ImageEntries(hit)| == if hit.hasPixmap then 1 else 0
  {
  }

  /**
   * What the menu shows: Print and Reload under their conditions, copying the selection
   * and saving the page always, the hyperlink submenu exactly for a valid link, and the
   * image submenu exactly for a non-null pixmap, as the last entry.
   */
  lemma ContextMenuContents(url: string, hit: HitTest, internal: InternalUrls)
    ensures Item(Print) in ContextMenu(url, hit, internal) <==> Printable(url, internal)
    ensures Item(ReloadPage) in ContextMenu(url, hit, internal) <==>
      Printable(url, internal) && url != internal.newspaper
    ensures Item(CopySelection) in ContextMenu(url, hit, internal)
    ensures Item(SavePageAs) in ContextMenu(url, hit, internal)
    ensures Submenu(HyperlinkMenu, LinkActions) in ContextMenu(url, hit, internal) <==> hit.linkUrl.Some?
    ensures Submenu(ImageMenu, ImageActions(hit)) in ContextMenu(url, hit, internal) <==> hit.hasPixmap
    ensures hit.hasPixmap ==>
      ContextMenu(url, hit, internal)[|ContextMenu(url, hit, internal)| - 1] == Submenu(ImageMenu, ImageActions(hit))
  {
    var page := PageEntries(url, internal);
    var links := LinkEntries(hit);
    var images := ImageEntries(hit);
    PageEntriesRule(url, internal);
    LinkEntriesRule(hit);
    ImageEntriesRule(hit);
    assert ContextMenu(url, hit, internal) == page + EditEntries + links + images;
  }

  /**
   * Nothing else is in the menu: its only submenus are the hyperlink and image ones, its
   * only plain actions are printing, reloading, copying the selection and saving the
   * page, and its length is one per entry the rule adds.
   */
  lemma ContextMenuExact(url: string, hit: HitTest, internal: InternalUrls)
    ensures forall e :: e in ContextMenu(url, hit, internal) && e.Submenu? ==>
      e == Submenu(HyperlinkMenu, LinkActions) || e == Submenu(ImageMenu, ImageActions(hit))
    ensures forall e :: e in ContextMenu(url, hit, internal) && e.Item? ==>
      e.action == Print || e.action == ReloadPage || e.action == CopySelection || e.action == SavePageAs
    ensures |ContextMenu(url, hit, internal)| ==
      |PageEntries(url, internal)| + 2 + (if hit.linkUrl.Some? then 1 else 0) + (if hit.hasPixmap then 1 else 0)
  {
    var page := PageEntries(url, internal);
    var links := LinkEntries(hit);
    var images := ImageEntries(hit);
    PageEntriesRule(url, internal);
    LinkEntriesRule(hit);
    ImageEntriesRule(hit);
    assert ContextMenu(url, hit, internal) == page + EditEntries + links + images;
  }

  /** No entry of the menu occurs twice: the rule adds each one at most once. */
  lemma ContextMenuDistinct(url: string, hit: HitTest, internal: InternalUrls)
    ensures Distinct(ContextMenu(url, hit, internal))
  {
    var page := PageEntries(url, internal);
    var links := LinkEntries(hit);
    var images := ImageEntries(hit);
    PageEntriesRule(url, internal);
    LinkEntriesRule(hit);
    ImageEntriesRule(hit);
    DistinctConcat(page, EditEntries);
    DistinctConcat(page + EditEntries, links);
    DistinctConcat(page + EditEntries + links, images);
  }

  /** The image submenu offers opening and copying the address only for a valid image URL, and always ends with copying the image. */
  lemma ImageSubmenuContents(hit: HitTest)
    ensures OpenImageNewTab in ImageActions(hit) <==> hit.imageUrl.Some?
    ensures CopyImageUrl in ImageActions(hit) <==> hit.imageUrl.Some?
    ensures ImageActions(hit)[|ImageActions(hit)| - 1] == CopyImage
  {
  }

  // ---------------------------------------------------------------------------
  // The view

  datatype MouseButton = LeftButton | RightButton | MiddleButton | OtherButton

  /** What the view does outwards, in order. */
  datatype ViewEvent =
    | LinkMiddleClicked(url: string)
    | GestureFired(gesture: Gesture)
    | PressForwarded
    | ReleaseForwarded
    | ErrorPageShown

  /** The events a release adds before it is forwarded to the base widget. */
  function GestureEvents(button: MouseButton, gesturesEnabled: bool, origin: Point, release: Point): seq<ViewEvent> {
    if button == MiddleButton && gesturesEnabled then
      match ResolveGesture(origin, release)
      case None => []
      case Some(g) => [GestureFired(g)]
    else []
  }

  /**
   * A release fires at most one action, and one exactly when it is a middle release,
   * gestures are enabled and the drag reached the floor.
   */
  lemma GestureNeedsMiddleButtonAndSetting(button: MouseButton, gesturesEnabled: bool, origin: Point, release: Point)
    ensures |GestureEvents(button, gesturesEnabled, origin, release)| <= 1
    ensures GestureEvents(button, gesturesEnabled, origin, release) != [] <==>
      button == MiddleButton && gesturesEnabled && MaxDisplacement(origin, release) >= GestureFloor
    ensures GestureEvents(button, gesturesEnabled, origin, release) != [] ==>
      GestureEvents(button, gesturesEnabled, origin, release)
        == [GestureFired(ResolveGesture(origin, release).value)]
  {
  }

  class WebView {
    const internalUrls: InternalUrls
    var gestureOrigin: Point
    var contextLinkUrl: Option<string>
    var contextImageUrl: Option<string>
    var log: seq<ViewEvent>

    constructor (internalUrls: InternalUrls)
      ensures this.internalUrls == internalUrls
      ensures gestureOrigin == Point(0, 0) && contextLinkUrl == None && contextImageUrl == None
      ensures log == []
    {
      this.internalUrls := internalUrls;
      gestureOrigin := Point(0, 0);
      contextLinkUrl := None;
      contextImageUrl := None;
      log := [];
    }

    /** `onLoadFinished(ok)`: a failed load shows the error page. */
    method OnLoadFinished(ok: bool)
      modifies this`log
      ensures log == old(log) + if ok then [] else [ErrorPageShown]
    {
      if !ok {
        log := log + [ErrorPageShown];
      }
    }

    /**
     * A press of `button` at `pos`; `ctrl` is the control modifier and `hit` the hit test
     * at `pos`. Ctrl+left opens the link, else the image, under the cursor and stops
     * there; a middle press records where a gesture starts and stops there; everything
     * else goes on to the base widget.
     */
    method MousePressEvent(button: MouseButton, ctrl: bool, pos: Point, hit: HitTest)
      modifies this`gestureOrigin, this`log
      ensures gestureOrigin == if button == MiddleButton then pos else old(gestureOrigin)
      ensures button == LeftButton && ctrl && hit.linkUrl.Some? ==>
        log == old(log) + [LinkMiddleClicked(hit.linkUrl.value)]
      ensures button == LeftButton && ctrl && hit.linkUrl.None? && hit.imageUrl.Some? ==>
        log == old(log) + [LinkMiddleClicked(hit.imageUrl.value)]
      ensures button == LeftButton && ctrl && hit.linkUrl.None? && hit.imageUrl.None? ==>
        log == old(log) + [PressForwarded]
      ensures button == MiddleButton ==> log == old(log)
      ensures button != MiddleButton && !(button == LeftButton && ctrl) ==> log == old(log) + [PressForwarded]
    {
      if button == LeftButton && ctrl {
        var linkUrl := hit.linkUrl;
        var imageUrl := hit.imageUrl;
        if linkUrl.Some? {
          log := log + [LinkMiddleClicked(linkUrl.value)];
          return;
        } else if imageUrl.Some? {
          log := log + [LinkMiddleClicked(imageUrl.value)];
          return;
        }
      } else if button == MiddleButton {
        gestureOrigin := pos;
        return;
      }
      log := log + [PressForwarded];
    }

    /**
     * A release of `button` at `pos`; `gesturesEnabled` is the Browser/GesturesEnabled
     * setting. A middle release with gestures on fires the resolved action, if any;
     * every release then goes on to the base widget.
     */
    method MouseReleaseEvent(button: MouseButton, gesturesEnabled: bool, pos: Point)
      modifies this`log
      ensures log == old(log) + GestureEvents(button, gesturesEnabled, gestureOrigin, pos) + [ReleaseForwarded]
    {
      if button == MiddleButton {
        if gesturesEnabled {
          var action := ResolveGesture(gestureOrigin, pos);
          if action.Some? {
            log := log + [GestureFired(action.value)];
          }
        }
      }
      log := log + [ReleaseForwarded];
    }

    /**
     * `popupContextMenu()`: assembles the menu for the page at `url` and the hit test
     * `hit`, and remembers the link and image it offers actions for.
     */
    method PopupContextMenu(url: string, hit: HitTest) returns (menu: seq<MenuEntry>)
      modifies this`contextLinkUrl, this`contextImageUrl
      ensures menu == ContextMenu(url, hit, internalUrls)
      ensures contextLinkUrl == if hit.linkUrl.Some? then hit.linkUrl else old(contextLinkUrl)
      ensures contextImageUrl == if hit.hasPixmap && hit.imageUrl.Some? then hit.imageUrl else old(contextImageUrl)
    {
      menu := [];
      if url != [] && url != internalUrls.empty && url != internalUrls.blank {
        menu := menu + [Item(Print)];
        if url != internalUrls.newspaper {
          menu := menu + [Item(ReloadPage)];
        }
      }
      assert menu == PageEntries(url, internalUrls);
      menu := menu + [Item(CopySelection)];
      menu := menu + [Item(SavePageAs)];
      assert menu == PageEntries(url, internalUrls) + EditEntries;

      if hit.linkUrl.Some? {
        contextLinkUrl := hit.linkUrl;
        var linkSubmenu := [];
        linkSubmenu := linkSubmenu + [OpenLinkThisTab];
        linkSubmenu := linkSubmenu + [OpenLinkNewTab];
        linkSubmenu := linkSubmenu + [OpenLinkExternally];
        linkSubmenu := linkSubmenu + [CopyLink];
        assert linkSubmenu == LinkActions;
        menu := menu + [Submenu(HyperlinkMenu, linkSubmenu)];
      }
      assert menu == PageEntries(url, internalUrls) + EditEntries + LinkEntries(hit);

      if hit.hasPixmap {
        var imageSubmenu := [];
        if hit.imageUrl.Some? {
          contextImageUrl := hit.imageUrl;
          imageSubmenu := imageSubmenu + [OpenImageNewTab];
          imageSubmenu := imageSubmenu + [CopyImageUrl];
        }
        imageSubmenu := imageSubmenu + [CopyImage];
        assert imageSubmenu == ImageActions(hit);
        menu := menu + [Submenu(ImageMenu, imageSubmenu)];
      }
    }
  }
}
