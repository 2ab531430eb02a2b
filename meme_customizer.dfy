/** The settings editor of the meme customiser. Every handler builds a new
    `MemeSettings` value out of the current one (object spreads, `filter`,
    array concatenation) and hands it to `onCustomize`; nothing is updated in
    place. A handler is modelled as the function from the current settings to
    the value it passes on. */
module MemeCustomizer {

  datatype Point = Point(x: real, y: real)

  datatype TextSettings = TextSettings(
    top: string,
    bottom: string,
    font: string,
    size: real,
    color: string,
    strokeColor: string,
    strokeWidth: real,
    position: Point,
    rotation: real)

  datatype Effects = Effects(brightness: real, contrast: real, saturation: real, blur: real)

  /** The three image sizes the DALL-E size union admits. */
  datatype ImageSize = Size256 | Size512 | Size1024

  datatype DalleSettings = DalleSettings(enabled: bool, prompt: string, style: string, size: ImageSize)

  datatype MemeSettings = MemeSettings(
    text: TextSettings,
    effects: Effects,
    filters: seq<string>,
    stickers: seq<string>,
    dalle: DalleSettings)

  // ---------------------------------------------------------------------
  // Fields, addressed by path

  /** `keyof MemeSettings["text"]` */
  datatype TextField = Top | Bottom | Font | FontSize | Color | StrokeColor | StrokeWidth | Position | Rotation

  /** `keyof MemeSettings["effects"]` */
  datatype EffectField = Brightness | Contrast | Saturation | Blur

  /** `keyof MemeSettings["dalle"]` */
  datatype DalleField = Enabled | Prompt | Style | Size

  /** Every leaf a handler can replace: a field of a sub-record, or one of
      the two top-level lists. */
  datatype Field = Text(t: TextField) | Effect(e: EffectField) | Filters | Stickers | Dalle(d: DalleField)

  /** The value held by a field. */
  datatype FieldValue = Str(s: string) | Num(n: real) | Pos(p: Point) | Flag(b: bool) | Dim(d: ImageSize) | List(items: seq<string>)

  /** `value` has the type the interface declares for `field`. */
  predicate Fits(field: Field, value: FieldValue)
  {
    match field
    case Text(Top) | Text(Bottom) | Text(Font) | Text(Color) | Text(StrokeColor) => value.Str?
    case Text(FontSize) | Text(StrokeWidth) | Text(Rotation) => value.Num?
    case Text(Position) => value.Pos?
    case Effect(_) => value.Num?
    case Filters | Stickers => value.List?
    case Dalle(Enabled) => value.Flag?
    case Dalle(Prompt) | Dalle(Style) => value.Str?
    case Dalle(Size) => value.Dim?
  }

  /** Reads a field. */
  function Get(s: MemeSettings, field: Field): (v: FieldValue)
    ensures Fits(field, v)
  {
    match field
    case Text(Top) => Str(s.text.top)
    case Text(Bottom) => Str(s.text.bottom)
    case Text(Font) => Str(s.text.font)
    case Text(FontSize) => Num(s.text.size)
    case Text(Color) => Str(s.text.color)
    case Text(StrokeColor) => Str(s.text.strokeColor)
    case Text(StrokeWidth) => Num(s.text.strokeWidth)
    case Text(Position) => Pos(s.text.position)
    case Text(Rotation) => Num(s.text.rotation)
    case Effect(Brightness) => Num(s.effects.brightness)
    case Effect(Contrast) => Num(s.effects.contrast)
    case Effect(Saturation) => Num(s.effects.saturation)
    case Effect(Blur) => Num(s.effects.blur)
    case Filters => List(s.filters)
    case Stickers => List(s.stickers)
    case Dalle(Enabled) => Flag(s.dalle.enabled)
    case Dalle(Prompt) => Str(s.dalle.prompt)
    case Dalle(Style) => Str(s.dalle.style)
    case Dalle(Size) => Dim(s.dalle.size)
  }

  /** `{ ...s, sub: { ...s.sub, [field]: value } }` (or `{ ...s, list: value }`
      for a top-level list): the field takes the new value and every other
      field keeps its old one. */
  function Set(s: MemeSettings, field: Field, value: FieldValue): (r: MemeSettings)
    requires Fits(field, value)
    ensures Get(r, field) == value
    ensures forall g :: g != field ==> Get(r, g) == Get(s, g)
  {
    match field
    case Text(Top) => s.(text := s.text.(top := value.s))
    case Text(Bottom) => s.(text := s.text.(bottom := value.s))
    case Text(Font) => s.(text := s.text.(font := value.s))
    case Text(FontSize) => s.(text := s.text.(size := value.n))
    case Text(Color) => s.(text := s.text.(color := value.s))
    case Text(StrokeColor) => s.(text := s.text.(strokeColor := value.s))
    case Text(StrokeWidth) => s.(text := s.text.(strokeWidth := value.n))
    case Text(Position) => s.(text := s.text.(position := value.p))
    case Text(Rotation) => s.(text := s.text.(rotation := value.n))
    case Effect(Brightness) => s.(effects := s.effects.(brightness := value.n))
    case Effect(Contrast) => s.(effects := s.effects.(contrast := value.n))
    case Effect(Saturation) => s.(effects := s.effects.(saturation := value.n))
    case Effect(Blur) => s.(effects := s.effects.(blur := value.n))
    case Filters => s.(filters := value.items)
    case Stickers => s.(stickers := value.items)
    case Dalle(Enabled) => s.(dalle := s.dalle.(enabled := value.b))
    case Dalle(Prompt) => s.(dalle := s.dalle.(prompt := value.s))
    case Dalle(Style) => s.(dalle := s.dalle.(style := value.s))
    case Dalle(Size) => s.(dalle := s.dalle.(size := value.d))
  }

  lemma TextExtensional(a: MemeSettings, b: MemeSettings)
    requires forall f :: Get(a, Text(f)) == Get(b, Text(f))
    ensures a.text == b.text
  {
    assert Get(a, Text(Top)) == Get(b, Text(Top)) && Get(a, Text(Bottom)) == Get(b, Text(Bottom));
    assert Get(a, Text(Font)) == Get(b, Text(Font)) && Get(a, Text(FontSize)) == Get(b, Text(FontSize));
    assert Get(a, Text(Color)) == Get(b, Text(Color)) && Get(a, Text(StrokeColor)) == Get(b, Text(StrokeColor));
    assert Get(a, Text(StrokeWidth)) == Get(b, Text(StrokeWidth)) && Get(a, Text(Position)) == Get(b, Text(Position));
    assert Get(a, Text(Rotation)) == Get(b, Text(Rotation));
  }

  lemma EffectsExtensional(a: MemeSettings, b: MemeSettings)
    requires forall f :: Get(a, Effect(f)) == Get(b, Effect(f))
    ensures a.effects == b.effects
  {
    assert Get(a, Effect(Brightness)) == Get(b, Effect(Brightness)) && Get(a, Effect(Contrast)) == Get(b, Effect(Contrast));
    assert Get(a, Effect(Saturation)) == Get(b, Effect(Saturation)) && Get(a, Effect(Blur)) == Get(b, Effect(Blur));
  }

  lemma DalleExtensional(a: MemeSettings, b: MemeSettings)
    requires forall f :: Get(a, Dalle(f)) == Get(b, Dalle(f))
    ensures a.dalle == b.dalle
  {
    assert Get(a, Dalle(Enabled)) == Get(b, Dalle(Enabled)) && Get(a, Dalle(Prompt)) == Get(b, Dalle(Prompt));
    assert Get(a, Dalle(Style)) == Get(b, Dalle(Style)) && Get(a, Dalle(Size)) == Get(b, Dalle(Size));
  }

  /** Two settings values that agree on every field are the same value, so
      the contract of `Set` determines its result. */
  lemma SettingsExtensional(a: MemeSettings, b: MemeSettings)
    requires forall f :: Get(a, f) == Get(b, f)
    ensures a == b
  {
    TextExtensional(a, b);
    EffectsExtensional(a, b);
    DalleExtensional(a, b);
    assert Get(a, Filters) == Get(b, Filters) && Get(a, Stickers) == Get(b, Stickers);
  }

  /** Writing a field's current value back gives the same settings. */
  lemma SetCurrentValueIsIdentity(s: MemeSettings, field: Field)
    ensures Set(s, field, Get(s, field)) == s
  {
    SettingsExtensional(Set(s, field, Get(s, field)), s);
  }

  /** Of two edits to the same field, the later one wins. */
  lemma SetLastWriteWins(s: MemeSettings, field: Field, v: FieldValue, w: FieldValue)
    requires Fits(field, v) && Fits(field, w)
    ensures Set(Set(s, field, v), field, w) == Set(s, field, w)
  {
    SettingsExtensional(Set(Set(s, field, v), field, w), Set(s, field, w));
  }

  /** Edits to different fields do not interfere: their order does not matter. */
  lemma SetsCommute(s: MemeSettings, f: Field, g: Field, v: FieldValue, w: FieldValue)
    requires f != g && Fits(f, v) && Fits(g, w)
    ensures Set(Set(s, f, v), g, w) == Set(Set(s, g, w), f, v)
  {
    SettingsExtensional(Set(Set(s, f, v), g, w), Set(Set(s, g, w), f, v));
  }

  // ---------------------------------------------------------------------
  // The set-like toggle on `filters` and `stickers`

  /** `xs.filter(x => x !== id)`: every occurrence of `id` goes, the other
      elements stay, with their multiplicities and in their order. */
  function RemoveAll(xs: seq<string>, id: string): (r: seq<string>)
    ensures id !in r
    ensures multiset(r) == multiset(xs)[id := 0]
    ensures IsSubsequence(r, xs)
  {
    if xs == [] then []
    else
      var rest := RemoveAll(xs[1..], id);
      assert xs == [xs[0]] + xs[1..];
      if xs[0] == id then rest else [xs[0]] + rest
  }

  /** `a` is `b` with some elements left out, in order. */
  predicate IsSubsequence(a: seq<string>, b: seq<string>)
    decreases |b|
  {
    if a == [] then true
    else if b == [] then false
    else if a[0] == b[0] then IsSubsequence(a[1..], b[1..])
    else IsSubsequence(a, b[1..])
  }

  /** `xs.includes(id) ? xs.filter(x => x !== id) : [...xs, id]` */
  function Toggle(xs: seq<string>, id: string): (r: seq<string>)
    ensures id in r <==> id !in xs
    ensures forall x :: x != id ==> (x in r <==> x in xs)
    ensures id in xs ==> r == RemoveAll(xs, id)
    ensures id !in xs ==> |r| == |xs| + 1 && r[..|xs|] == xs && r[|xs|] == id
  {
    if id in xs then
      var r := RemoveAll(xs, id);
      assert forall x :: x in r <==> multiset(r)[x] > 0;
      r
    else xs + [id]
  }

  /** Removing an id that is not there changes nothing. */
  lemma {:induction false} RemoveAllAbsent(xs: seq<string>, id: string)
    requires id !in xs
    ensures RemoveAll(xs, id) == xs
  {
    if xs != [] {
      RemoveAllAbsent(xs[1..], id);
    }
  }

  /** Removal distributes over concatenation. */
  lemma {:induction false} RemoveAllAppend(a: seq<string>, b: seq<string>, id: string)
    ensures RemoveAll(a + b, id) == RemoveAll(a, id) + RemoveAll(b, id)
  {
    if a == [] {
      assert a + b == b;
    } else {
      assert (a + b)[0] == a[0] && (a + b)[1..] == a[1..] + b;
      RemoveAllAppend(a[1..], b, id);
    }
  }

  /** Toggling an absent id twice restores the list. */
  lemma ToggleTwiceAbsent(xs: seq<string>, id: string)
    requires id !in xs
    ensures Toggle(Toggle(xs, id), id) == xs
  {
    RemoveAllAppend(xs, [id], id);
    RemoveAllAbsent(xs, id);
    assert RemoveAll([id], id) == [];
  }

  /** Toggling a present id twice moves it to the end, once. */
  lemma ToggleTwicePresent(xs: seq<string>, id: string)
    requires id in xs
    ensures Toggle(Toggle(xs, id), id) == RemoveAll(xs, id) + [id]
  {
  }

  /** Every id occurs at most once. */
  predicate NoDuplicates(xs: seq<string>)
  {
    forall x | x in xs :: multiset(xs)[x] <= 1
  }

  /** A duplicate-free list stays duplicate-free under a toggle. */
  lemma ToggleKeepsNoDuplicates(xs: seq<string>, id: string)
    requires NoDuplicates(xs)
    ensures NoDuplicates(Toggle(xs, id))
  {
    if id !in xs {
      assert multiset(xs + [id]) == multiset(xs) + multiset{id};
    }
  }

  /** Ids that a list only ever holds from a fixed catalogue stay within it
      when an id of the catalogue is toggled. */
  lemma ToggleStaysWithin(xs: seq<string>, id: string, catalogue: seq<string>)
    requires forall x :: x in xs ==> x in catalogue
    requires id in catalogue
    ensures forall x :: x in Toggle(xs, id) ==> x in catalogue
  {
  }

  /** The ids of the filter buttons. */
  const AvailableFilters: seq<string> := ["grayscale", "sepia", "invert", "hue-rotate", "saturate"]

  /** The names of the sticker buttons. */
  const AvailableStickers: seq<string> :=
    ["laugh", "cry", "surprised", "angry", "cool", "heart", "fire", "star", "crown"]

  // ---------------------------------------------------------------------
  // The handlers

  function HandleTextChange(s: MemeSettings, field: TextField, value: FieldValue): (r: MemeSettings)
    requires Fits(Text(field), value)
    ensures Get(r, Text(field)) == value
    ensures forall g :: g != Text(field) ==> Get(r, g) == Get(s, g)
  {
    Set(s, Text(field), value)
  }

  function HandleEffectChange(s: MemeSettings, field: EffectField, value: real): (r: MemeSettings)
    ensures Get(r, Effect(field)) == Num(value)
    ensures forall g :: g != Effect(field) ==> Get(r, g) == Get(s, g)
  {
    Set(s, Effect(field), Num(value))
  }

  function HandleFilterToggle(s: MemeSettings, filterId: string): (r: MemeSettings)
    ensures r.filters == Toggle(s.filters, filterId)
    ensures forall g :: g != Filters ==> Get(r, g) == Get(s, g)
  {
    Set(s, Filters, List(Toggle(s.filters, filterId)))
  }

  function HandleStickerToggle(s: MemeSettings, stickerName: string): (r: MemeSettings)
    ensures r.stickers == Toggle(s.stickers, stickerName)
    ensures forall g :: g != Stickers ==> Get(r, g) == Get(s, g)
  {
    Set(s, Stickers, List(Toggle(s.stickers, stickerName)))
  }

  function HandleDalleToggle(s: MemeSettings, enabled: bool): (r: MemeSettings)
    ensures r.dalle.enabled == enabled
    ensures forall g :: g != Dalle(Enabled) ==> Get(r, g) == Get(s, g)
  {
    Set(s, Dalle(Enabled), Flag(enabled))
  }

  function HandleDalleChange(s: MemeSettings, field: DalleField, value: FieldValue): (r: MemeSettings)
    requires Fits(Dalle(field), value)
    ensures Get(r, Dalle(field)) == value
    ensures forall g :: g != Dalle(field) ==> Get(r, g) == Get(s, g)
  {
    Set(s, Dalle(field), value)
  }

  /** Clicking a filter button twice, when it was off, restores the settings. */
  lemma FilterToggleTwiceRestores(s: MemeSettings, filterId: string)
    requires filterId !in s.filters
    ensures HandleFilterToggle(HandleFilterToggle(s, filterId), filterId) == s
  {
    ToggleTwiceAbsent(s.filters, filterId);
    SetLastWriteWins(s, Filters, List(Toggle(s.filters, filterId)), List(s.filters));
    SetCurrentValueIsIdentity(s, Filters);
  }

  /** Clicking a sticker button twice, when it was off, restores the settings. */
  lemma StickerToggleTwiceRestores(s: MemeSettings, stickerName: string)
    requires stickerName !in s.stickers
    ensures HandleStickerToggle(HandleStickerToggle(s, stickerName), stickerName) == s
  {
    ToggleTwiceAbsent(s.stickers, stickerName);
    SetLastWriteWins(s, Stickers, List(Toggle(s.stickers, stickerName)), List(s.stickers));
    SetCurrentValueIsIdentity(s, Stickers);
  }

  /** The filter buttons keep `filters` a duplicate-free list of known filter ids. */
  lemma FilterButtonsKeepCatalogue(s: MemeSettings, filterId: string)
    requires filterId in AvailableFilters
    requires NoDuplicates(s.filters) && forall f :: f in s.filters ==> f in AvailableFilters
    ensures NoDuplicates(HandleFilterToggle(s, filterId).filters)
    ensures forall f :: f in HandleFilterToggle(s, filterId).filters ==> f in AvailableFilters
  {
    ToggleKeepsNoDuplicates(s.filters, filterId);
    ToggleStaysWithin(s.filters, filterId, AvailableFilters);
  }

  /** The sticker buttons keep `stickers` a duplicate-free list of known sticker names. */
  lemma StickerButtonsKeepCatalogue(s: MemeSettings, stickerName: string)
    requires stickerName in AvailableStickers
    requires NoDuplicates(s.stickers) && forall x :: x in s.stickers ==> x in AvailableStickers
    ensures NoDuplicates(HandleStickerToggle(s, stickerName).stickers)
    ensures forall x :: x in HandleStickerToggle(s, stickerName).stickers ==> x in AvailableStickers
  {
    ToggleKeepsNoDuplicates(s.stickers, stickerName);
    ToggleStaysWithin(s.stickers, stickerName, AvailableStickers);
  }
}
