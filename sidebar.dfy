/**
 * The sidebar's open state held by `SidebarProvider`. On a mobile viewport
 * `open` follows the `open` prop when the parent controls it and the internal
 * state otherwise; on a desktop viewport it follows hovering. `setOpen` and
 * `toggleSidebar` act only on mobile, and Ctrl+B or Cmd+B toggles.
 */
module Sidebar {
  import opened Wrappers

  const MissingProviderMessage := "useSidebar must be used within a SidebarProvider."

  /** The key, as `KeyboardEvent.key` reports it, of the toggle shortcut. */
  const ShortcutKey := "b"

  datatype SidebarState = Expanded | Collapsed

  /** The argument of `setOpen`: a value, or a function of the current `open`. */
  datatype OpenArg = Value(open: bool) | Updater(update: bool -> bool)

  /** The fields of a `keydown` event that the shortcut looks at. */
  datatype KeyEvent = KeyEvent(key: string, metaKey: bool, ctrlKey: bool)

  /** `isMobile ? (openProp ?? _open) : isHovering`. */
  function DerivedOpen(isMobile: bool, openProp: Option<bool>, internalOpen: bool, isHovering: bool): bool {
    if isMobile then openProp.GetOr(internalOpen) else isHovering
  }

  /** `open ? "expanded" : "collapsed"`. */
  function StateOf(open: bool): (s: SidebarState)
    ensures s == Expanded <==> open
    ensures s == Collapsed <==> !open
  {
    if open then Expanded else Collapsed
  }

  /** `typeof value === "function" ? value(open) : value`. */
  function Resolve(arg: OpenArg, current: bool): bool {
    match arg
    case Value(open) => open
    case Updater(update) => update(current)
  }

  /** The `keydown` handler fires for the key `b` with Meta or Ctrl held. */
  predicate IsShortcut(e: KeyEvent) {
    e.key == ShortcutKey && (e.metaKey || e.ctrlKey)
  }

  /** On desktop only hovering counts; on mobile a controlled `open` prop hides the internal state. */
  lemma OpenSources(openProp: Option<bool>, internalOpen: bool, isHovering: bool)
    ensures DerivedOpen(false, openProp, internalOpen, isHovering) == isHovering
    ensures openProp.Some? ==> DerivedOpen(true, openProp, internalOpen, isHovering) == openProp.value
    ensures openProp.None? ==> DerivedOpen(true, openProp, internalOpen, isHovering) == internalOpen
  {
  }

  /** The shortcut needs a modifier, and Shift+Ctrl+B (key `"B"`) does not fire it. */
  lemma ShortcutNeedsModifierAndLowerCase(key: string, metaKey: bool, ctrlKey: bool)
    ensures !metaKey && !ctrlKey ==> !IsShortcut(KeyEvent(key, metaKey, ctrlKey))
    ensures !IsShortcut(KeyEvent("B", metaKey, ctrlKey))
  {
  }

  class SidebarProvider {
    /** `useIsMobile()` at the latest render. */
    var isMobile: bool
    /** The `open` prop; `None` when the parent leaves it undefined. */
    var openProp: Option<bool>
    /** Whether the parent passed `onOpenChange`. */
    var hasOnOpenChange: bool
    /** The `_open` state cell. */
    var internalOpen: bool
    var openMobile: bool
    var isHovering: bool

    function Open(): bool
      reads this
    {
      DerivedOpen(isMobile, openProp, internalOpen, isHovering)
    }

    function State(): (s: SidebarState)
      reads this
      ensures s == Expanded <==> Open()
    {
      StateOf(Open())
    }

    /** First render: `openMobile` and `isHovering` false, `_open` from `defaultOpen`, which defaults to false. */
    constructor (isMobile: bool, defaultOpen: Option<bool>, openProp: Option<bool>, hasOnOpenChange: bool)
      ensures this.isMobile == isMobile && this.openProp == openProp && this.hasOnOpenChange == hasOnOpenChange
      ensures internalOpen == defaultOpen.GetOr(false)
      ensures !openMobile && !isHovering
    {
      this.isMobile := isMobile;
      this.openProp := openProp;
      this.hasOnOpenChange := hasOnOpenChange;
      internalOpen := defaultOpen.GetOr(false);
      openMobile := false;
      isHovering := false;
    }

    /** A later render with new viewport and props; the state cells keep their values. */
    method Rerender(isMobile: bool, openProp: Option<bool>, hasOnOpenChange: bool)
      modifies this`isMobile, this`openProp, this`hasOnOpenChange
      ensures this.isMobile == isMobile && this.openProp == openProp && this.hasOnOpenChange == hasOnOpenChange
    {
      this.isMobile := isMobile;
      this.openProp := openProp;
      this.hasOnOpenChange := hasOnOpenChange;
    }

    /**
     * `setOpen(value)`. On mobile the resolved value goes to `onOpenChange`
     * when the parent passed one (returned as `notified`), and to `_open`
     * otherwise; never to both. On desktop nothing happens.
     */
    method SetOpen(arg: OpenArg) returns (notified: Option<bool>)
      modifies this`internalOpen
      ensures !isMobile ==> notified == None && internalOpen == old(internalOpen)
      ensures isMobile && hasOnOpenChange ==>
                notified == Some(Resolve(arg, old(Open()))) && internalOpen == old(internalOpen)
      ensures isMobile && !hasOnOpenChange ==>
                notified == None && internalOpen == Resolve(arg, old(Open()))
    {
      var openState := Resolve(arg, Open());
      notified := None;
      if isMobile {
        if hasOnOpenChange {
          notified := Some(openState);
        } else {
          internalOpen := openState;
        }
      }
    }

    method SetOpenMobile(open: bool)
      modifies this`openMobile
      ensures openMobile == open
    {
      openMobile := open;
    }

    method SetIsHovering(hovering: bool)
      modifies this`isHovering
      ensures isHovering == hovering
    {
      isHovering := hovering;
    }

    /** `toggleSidebar()`: negates `openMobile` on mobile, does nothing on desktop. */
    method ToggleSidebar()
      modifies this`openMobile
      ensures openMobile == (if isMobile then !old(openMobile) else old(openMobile))
    {
      if isMobile {
        openMobile := !openMobile;
      }
    }

    /** The `keydown` listener: on the shortcut, prevent the default action and toggle. */
    method HandleKeyDown(e: KeyEvent) returns (preventDefault: bool)
      modifies this`openMobile
      ensures preventDefault == IsShortcut(e)
      ensures openMobile == (if IsShortcut(e) && isMobile then !old(openMobile) else old(openMobile))
    {
      preventDefault := IsShortcut(e);
      if preventDefault {
        ToggleSidebar();
      }
    }
  }

  /** `useSidebar()`: the provider's value, or the error thrown outside a provider. */
  function UseSidebar(context: Option<SidebarProvider>): (r: Result<SidebarProvider>)
    ensures r.Ok? <==> context.Some?
    ensures r.Ok? ==> r.value == context.value
    ensures r.Err? ==> r.message == MissingProviderMessage
  {
    match context
    case Some(provider) => Ok(provider)
    case None => Err(MissingProviderMessage)
  }

  /** Toggling twice restores `openMobile`, on either viewport. */
  method ToggleTwiceRestores(sidebar: SidebarProvider)
    modifies sidebar
    ensures sidebar.openMobile == old(sidebar.openMobile)
  {
    sidebar.ToggleSidebar();
    sidebar.ToggleSidebar();
  }

  /** On desktop `setOpen` changes nothing: neither `open`, nor the state cells, nor the parent. */
  method DesktopSetOpenIsNoOp(sidebar: SidebarProvider, arg: OpenArg) returns (notified: Option<bool>)
    requires !sidebar.isMobile
    modifies sidebar
    ensures notified == None
    ensures sidebar.Open() == old(sidebar.Open()) && sidebar.internalOpen == old(sidebar.internalOpen)
  {
    notified := sidebar.SetOpen(arg);
  }
}
