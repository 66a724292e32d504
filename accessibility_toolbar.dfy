/** The floating accessibility toolbar: a font-size controller clamped to [80, 200] in
    steps of 20, and four independent switches (high contrast, text reader, sign-language
    interpreter, the panel itself). */
module AccessibilityToolbar {
  import opened Common

  const MinFontSize: int := 80
  const MaxFontSize: int := 200
  const DefaultFontSize: int := 100
  const FontStep: int := 20

  /** The sizes the controller can reach from its default. */
  predicate Reachable(size: int)
  {
    MinFontSize <= size <= MaxFontSize && size % FontStep == 0
  }

  /** The size after pressing "+": one step up, but never past the maximum. */
  function IncreasedSize(size: int): (r: int)
    ensures r <= MaxFontSize
    ensures size < MaxFontSize ==> size < r <= size + FontStep
    ensures size >= MaxFontSize ==> r == MaxFontSize
  {
    if size + FontStep <= MaxFontSize then size + FontStep else MaxFontSize
  }

  /** The size after pressing "-": one step down, but never below the minimum. */
  function DecreasedSize(size: int): (r: int)
    ensures r >= MinFontSize
    ensures size > MinFontSize ==> size - FontStep <= r < size
    ensures size <= MinFontSize ==> r == MinFontSize
  {
    if size - FontStep >= MinFontSize then size - FontStep else MinFontSize
  }

  /** The "+" button is disabled at the maximum, exactly where pressing it would change nothing. */
  predicate IncreaseDisabled(size: int)
  {
    size >= MaxFontSize
  }

  /** The "-" button is disabled at the minimum, exactly where pressing it would change nothing. */
  predicate DecreaseDisabled(size: int)
  {
    size <= MinFontSize
  }

  datatype FontAction = Increase | Decrease | Reset

  function Step(action: FontAction, size: int): int
  {
    match action
    case Increase => IncreasedSize(size)
    case Decrease => DecreasedSize(size)
    case Reset => DefaultFontSize
  }

  /** The font size after a sequence of button presses. */
  function Run(actions: seq<FontAction>, size: int): int
    decreases |actions|
  {
    if actions == [] then size else Run(actions[1..], Step(actions[0], size))
  }

  /** One press keeps a reachable size reachable. */
  lemma StepKeepsReachable(action: FontAction, size: int)
    requires Reachable(size)
    ensures Reachable(Step(action, size))
  {
    match action
    case Increase =>
      if size + FontStep <= MaxFontSize {
        assert (size + FontStep) % FontStep == size % FontStep;
      }
    case Decrease =>
      if size - FontStep >= MinFontSize {
        assert (size - FontStep) % FontStep == size % FontStep;
      }
    case Reset =>
  }

  /** From the default size, any sequence of presses stays within [80, 200] on a multiple of 20. */
  lemma {:induction false} RunKeepsReachable(actions: seq<FontAction>, size: int)
    requires Reachable(size)
    ensures Reachable(Run(actions, size))
    decreases |actions|
  {
    if actions != [] {
      StepKeepsReachable(actions[0], size);
      RunKeepsReachable(actions[1..], Step(actions[0], size));
    }
  }

  /** The disabled state of each button is exactly the size at which pressing it is a no-op. */
  lemma DisabledIffNoOp(size: int)
    requires Reachable(size)
    ensures IncreaseDisabled(size) <==> IncreasedSize(size) == size
    ensures DecreaseDisabled(size) <==> DecreasedSize(size) == size
  {
  }

  /** "+" then "-" restores any reachable size below the maximum, and "-" then "+" any above the minimum. */
  lemma IncreaseDecreaseInverse(size: int)
    requires Reachable(size)
    ensures size < MaxFontSize ==> DecreasedSize(IncreasedSize(size)) == size
    ensures size > MinFontSize ==> IncreasedSize(DecreasedSize(size)) == size
  {
  }

  /** The label of the contrast button. */
  function ContrastButtonText(highContrast: bool): (text: string)
    ensures text == "Desativar Alto Contraste" <==> highContrast
    ensures text == "Ativar Alto Contraste" <==> !highContrast
  {
    (if highContrast then "Desativar" else "Ativar") + " Alto Contraste"
  }

  /** The document's root element, one per page and shared by every toolbar mounted on it. */
  class RootElement {
    /** Whether it carries the `high-contrast` class. */
    var highContrast: bool
    /** Its inline font size in percent, once a font button has written one. */
    var fontSize: Option<int>

    constructor ()
      ensures !highContrast && fontSize == None
    {
      highContrast := false;
      fontSize := None;
    }
  }

  /** One mounted toolbar. Its contrast flag and font size are its own React state; the root
      element it writes to is shared with the other toolbars of the page and survives remounts. */
  class Toolbar {
    const root: RootElement
    var isOpen: bool
    var highContrast: bool
    var fontSize: int
    var isReading: bool
    var librasActive: bool

    /** The size shown is always one the buttons can reach. */
    ghost predicate Valid()
      reads this
    {
      Reachable(fontSize)
    }

    /** Mounting starts from the defaults whatever the root element already carries. */
    constructor (root: RootElement)
      ensures Valid()
      ensures this.root == root
      ensures !isOpen && !highContrast && !isReading && !librasActive && fontSize == DefaultFontSize
      ensures root.highContrast == old(root.highContrast) && root.fontSize == old(root.fontSize)
    {
      this.root := root;
      isOpen := false;
      highContrast := false;
      fontSize := DefaultFontSize;
      isReading := false;
      librasActive := false;
    }

    method IncreaseFontSize()
      requires Valid()
      modifies this, root
      ensures Valid()
      ensures fontSize == IncreasedSize(old(fontSize)) && root.fontSize == Some(fontSize)
      ensures root.highContrast == old(root.highContrast)
      ensures isOpen == old(isOpen) && highContrast == old(highContrast)
      ensures isReading == old(isReading) && librasActive == old(librasActive)
    {
      StepKeepsReachable(Increase, fontSize);
      var newSize := IncreasedSize(fontSize);
      fontSize := newSize;
      root.fontSize := Some(newSize);
    }

    method DecreaseFontSize()
      requires Valid()
      modifies this, root
      ensures Valid()
      ensures fontSize == DecreasedSize(old(fontSize)) && root.fontSize == Some(fontSize)
      ensures root.highContrast == old(root.highContrast)
      ensures isOpen == old(isOpen) && highContrast == old(highContrast)
      ensures isReading == old(isReading) && librasActive == old(librasActive)
    {
      StepKeepsReachable(Decrease, fontSize);
      var newSize := DecreasedSize(fontSize);
      fontSize := newSize;
      root.fontSize := Some(newSize);
    }

    method ResetFontSize()
      modifies this, root
      ensures Valid()
      ensures fontSize == DefaultFontSize && root.fontSize == Some(DefaultFontSize)
      ensures root.highContrast == old(root.highContrast)
      ensures isOpen == old(isOpen) && highContrast == old(highContrast)
      ensures isReading == old(isReading) && librasActive == old(librasActive)
    {
      fontSize := DefaultFontSize;
      root.fontSize := Some(DefaultFontSize);
    }

    /** Flips this toolbar's flag and toggles the class on the shared root, each from its own
        old value: the two agree only if they agreed before. */
    method ToggleContrast()
      modifies this, root
      ensures highContrast == !old(highContrast) && root.highContrast == !old(root.highContrast)
      ensures root.fontSize == old(root.fontSize)
      ensures isOpen == old(isOpen) && fontSize == old(fontSize)
      ensures isReading == old(isReading) && librasActive == old(librasActive)
    {
      highContrast := !highContrast;
      root.highContrast := !root.highContrast;
    }

    /** Flips the reader and returns the alert it shows, chosen by the state before the flip. */
    method ToggleTextReader() returns (alert: string)
      modifies this
      ensures isReading == !old(isReading)
      ensures alert == if old(isReading) then "Leitor de texto desativado."
                       else "Leitor de texto ativado! Clique em qualquer texto para ouvi-lo."
      ensures isOpen == old(isOpen) && highContrast == old(highContrast) && fontSize == old(fontSize)
      ensures librasActive == old(librasActive)
    {
      var wasReading := isReading;
      isReading := !isReading;
      if !wasReading {
        alert := "Leitor de texto ativado! Clique em qualquer texto para ouvi-lo.";
      } else {
        alert := "Leitor de texto desativado.";
      }
    }

    /** Flips the sign-language interpreter and returns the alert it shows. */
    method ToggleLibras() returns (alert: string)
      modifies this
      ensures librasActive == !old(librasActive)
      ensures alert == if old(librasActive) then "Vídeo-intérprete de Libras desativado."
                       else "Vídeo-intérprete de Libras ativado!"
      ensures isOpen == old(isOpen) && highContrast == old(highContrast) && fontSize == old(fontSize)
      ensures isReading == old(isReading)
    {
      var wasActive := librasActive;
      librasActive := !librasActive;
      if !wasActive {
        alert := "Vídeo-intérprete de Libras ativado!";
      } else {
        alert := "Vídeo-intérprete de Libras desativado.";
      }
    }

    method TogglePanel()
      modifies this
      ensures isOpen == !old(isOpen)
      ensures highContrast == old(highContrast) && fontSize == old(fontSize)
      ensures isReading == old(isReading) && librasActive == old(librasActive)
    {
      isOpen := !isOpen;
    }
  }

  /** The header's toolbar and the page's own toolbar over one root element: contrast pressed
      on the page's toolbar, then on the header's. The header's button now offers to deactivate
      high contrast while the page no longer has it. */
  method SiblingContrastDesync() returns (buttonText: string, classOn: bool)
    ensures buttonText == "Desativar Alto Contraste" && !classOn
  {
    var root := new RootElement();
    var header := new Toolbar(root);
    var page := new Toolbar(root);
    page.ToggleContrast();
    header.ToggleContrast();
    buttonText := ContrastButtonText(header.highContrast);
    classOn := root.highContrast;
  }

  /** "+" pressed twice, then the route changes and a fresh toolbar mounts over the same root:
      it shows 100%, and its "-" drops the page from 140% straight to 80%. */
  method RemountFontDesync() returns (before: Option<int>, after: Option<int>)
    ensures before == Some(140) && after == Some(80)
  {
    var root := new RootElement();
    var first := new Toolbar(root);
    first.IncreaseFontSize();
    first.IncreaseFontSize();
    before := root.fontSize;
    var second := new Toolbar(root);
    second.DecreaseFontSize();
    after := root.fontSize;
  }

  /** The toolbar as evidently intended: the root element is the one source of truth for
      contrast and font size, so every toolbar on the page shows what the page has and steps
      from the size actually applied. */
  class SharedToolbar {
    const root: RootElement
    var isOpen: bool
    var isReading: bool
    var librasActive: bool

    constructor (root: RootElement)
      ensures this.root == root
      ensures !isOpen && !isReading && !librasActive
      ensures root.highContrast == old(root.highContrast) && root.fontSize == old(root.fontSize)
    {
      this.root := root;
      isOpen := false;
      isReading := false;
      librasActive := false;
    }

    /** The size shown: the one applied to the page, or the default before any was written. */
    function FontSize(): int
      reads this, root
    {
      root.fontSize.GetOr(DefaultFontSize)
    }

    /** The contrast button's label, read off the page. */
    function ContrastText(): (text: string)
      reads this, root
      ensures text == "Desativar Alto Contraste" <==> root.highContrast
    {
      ContrastButtonText(root.highContrast)
    }

    method IncreaseFontSize()
      modifies root
      ensures root.fontSize == Some(IncreasedSize(old(FontSize())))
      ensures root.highContrast == old(root.highContrast)
    {
      root.fontSize := Some(IncreasedSize(FontSize()));
    }

    method DecreaseFontSize()
      modifies root
      ensures root.fontSize == Some(DecreasedSize(old(FontSize())))
      ensures root.highContrast == old(root.highContrast)
    {
      root.fontSize := Some(DecreasedSize(FontSize()));
    }

    method ToggleContrast()
      modifies root
      ensures root.highContrast == !old(root.highContrast)
      ensures root.fontSize == old(root.fontSize)
    {
      root.highContrast := !root.highContrast;
    }
  }

  /** The same two presses on the intended toolbars: the header's button agrees with the page. */
  method SiblingContrastAgrees() returns (buttonText: string, classOn: bool)
    ensures buttonText == "Ativar Alto Contraste" && !classOn
  {
    var root := new RootElement();
    var header := new SharedToolbar(root);
    var page := new SharedToolbar(root);
    page.ToggleContrast();
    header.ToggleContrast();
    buttonText := header.ContrastText();
    classOn := root.highContrast;
  }

  /** The same presses and remount on the intended toolbars: "-" steps from 140% to 120%. */
  method RemountFontAgrees() returns (before: Option<int>, after: Option<int>)
    ensures before == Some(140) && after == Some(120)
  {
    var root := new RootElement();
    var first := new SharedToolbar(root);
    first.IncreaseFontSize();
    first.IncreaseFontSize();
    before := root.fontSize;
    var second := new SharedToolbar(root);
    second.DecreaseFontSize();
    after := root.fontSize;
  }
}
