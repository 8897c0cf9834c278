/** `jsonFromFits` in hcam_widgets/misc.py: rebuilding an instrument setup
    (the `appdata` and `user` dictionaries) from the FITS header of a run.
    The header is the map from the cards the function reads to their
    values; `json.dumps` of the result is not modelled. */
module FitsSetup {
  import opened Wrappers
  import opened Lists

  /** The Python values a header card or a setup entry can hold. */
  datatype PyVal =
    | PNone
    | PBool(b: bool)
    | PInt(i: int)
    | PReal(x: real)
    | PStr(s: string)
    | PList(items: seq<PyVal>)

  /** Windows are numbered 1 and 2; the drift window uses window 1's names. */
  datatype Win = W1 | W2

  /** The header cards `jsonFromFits` reads. */
  datatype Card =
    | NSkips(k: nat)
    | Dummy | FastClock | IncPrescanX | IncOverscanY | Speed | BinX | BinY
    | ClearCcd | ExposeLed | TExpose | ReadMode
    | WinNX(w: Win) | WinNY(w: Win) | WinXSLL(w: Win) | WinXSLR(w: Win)
    | WinXSUL(w: Win) | WinXSUR(w: Win) | WinYS(w: Win)
    | DriftNX | DriftNY | DriftXSL | DriftXSR | DriftYS
    | Observer | Object | RunComment | ImageType | Filters | Programme | PrincipalInvestigator

  /** The digit of a window number. */
  function WinDigit(w: Win): string {
    if w == W1 then "1" else "2"
  }

  /** The card's name in the header: the detector cards carry the
      `'HIERARCH ESO '` prefix the local `full_key` adds. */
  function CardName(c: Card): string {
    match c
    case NSkips(k) => "HIERARCH ESO DET NSKIPS" + [(48 + k % 10) as char]
    case Dummy => "HIERARCH ESO DET DUMMY"
    case FastClock => "HIERARCH ESO DET FASTCLK"
    case IncPrescanX => "HIERARCH ESO DET INCPRSCX"
    case IncOverscanY => "HIERARCH ESO DET INCOVSCY"
    case Speed => "HIERARCH ESO DET SPEED"
    case BinX => "HIERARCH ESO DET BINX1"
    case BinY => "HIERARCH ESO DET BINY1"
    case ClearCcd => "HIERARCH ESO DET CLRCCD"
    case ExposeLed => "HIERARCH ESO DET EXPLED"
    case TExpose => "HIERARCH ESO DET TEXPOSE"
    case ReadMode => "HIERARCH ESO DET READ CURID"
    case WinNX(w) => "HIERARCH ESO DET WIN" + WinDigit(w) + " NX"
    case WinNY(w) => "HIERARCH ESO DET WIN" + WinDigit(w) + " NY"
    case WinXSLL(w) => "HIERARCH ESO DET WIN" + WinDigit(w) + " XSLL"
    case WinXSLR(w) => "HIERARCH ESO DET WIN" + WinDigit(w) + " XSLR"
    case WinXSUL(w) => "HIERARCH ESO DET WIN" + WinDigit(w) + " XSUL"
    case WinXSUR(w) => "HIERARCH ESO DET WIN" + WinDigit(w) + " XSUR"
    case WinYS(w) => "HIERARCH ESO DET WIN" + WinDigit(w) + " YS"
    case DriftNX => "HIERARCH ESO DET DRWIN NX"
    case DriftNY => "HIERARCH ESO DET DRWIN NY"
    case DriftXSL => "HIERARCH ESO DET DRWIN XSL"
    case DriftXSR => "HIERARCH ESO DET DRWIN XSR"
    case DriftYS => "HIERARCH ESO DET DRWIN YS"
    case Observer => "OBSERVER"
    case Object => "OBJECT"
    case RunComment => "RUNCOM"
    case ImageType => "IMAGETYP"
    case Filters => "FILTERS"
    case Programme => "PROGRM"
    case PrincipalInvestigator => "PI"
  }

  /** A FITS header, restricted to the cards read here. */
  type Header = map<Card, PyVal>

  /** `hdr.get(card, default)`. */
  function Get(hdr: Header, c: Card, default: PyVal): PyVal {
    if c in hdr then hdr[c] else default
  }

  /** Values Python's arithmetic accepts: booleans count as 0 and 1. */
  predicate IsNumber(v: PyVal) {
    v.PBool? || v.PInt? || v.PReal?
  }

  /** The numeric value of a number. */
  function NumValue(v: PyVal): real
    requires IsNumber(v)
  {
    match v
    case PBool(b) => if b then 1.0 else 0.0
    case PInt(i) => i as real
    case PReal(x) => x
  }

  /** `v + 1` (equally `1 + v`): one more than a number, an integer unless
      `v` is a float; a TypeError for anything else. */
  function AddOne(v: PyVal): (r: Result<PyVal, Exception>)
    ensures r.Success? <==> IsNumber(v)
    ensures r.Failure? ==> r.error == TypeError
    ensures r.Success? ==> IsNumber(r.value) && NumValue(r.value) == NumValue(v) + 1.0
    ensures r.Success? ==> (r.value.PReal? <==> v.PReal?)
  {
    match v
    case PBool(b) => Success(PInt(if b then 2 else 1))
    case PInt(i) => Success(PInt(i + 1))
    case PReal(x) => Success(PReal(x + 1.0))
    case _ => Failure(TypeError)
  }

  /** `n` is `x` truncated toward zero, as Python's `int()` truncates. */
  predicate Truncates(x: real, n: int) {
    && (x >= 0.0 ==> n as real <= x < n as real + 1.0)
    && (x < 0.0 ==> n as real - 1.0 < x <= n as real)
  }

  /** Python's `int(v)`: a number truncated toward zero, a string through
      `intOfText` (the text-to-integer parse, `None` when it raises a
      ValueError), a TypeError for anything else. */
  function IntOf(v: PyVal, intOfText: string -> Option<int>): (r: Result<int, Exception>)
    ensures r.Success? <==> IsNumber(v) || (v.PStr? && intOfText(v.s).Some?)
    ensures IsNumber(v) ==> Truncates(NumValue(v), r.value)
    ensures v.PStr? && r.Success? ==> r.value == intOfText(v.s).value
    ensures r.Failure? ==> r.error == (if v.PStr? then ValueError else TypeError)
  {
    match v
    case PBool(b) => Success(if b then 1 else 0)
    case PInt(i) => Success(i)
    case PReal(x) => Success(if x >= 0.0 then x.Floor else -((-x).Floor))
    case PStr(s) => if intOfText(s).Some? then Success(intOfText(s).value) else Failure(ValueError)
    case _ => Failure(TypeError)
  }

  /** `v / 1000` with Python's true division. */
  function PerThousand(v: PyVal): (r: Result<real, Exception>)
    ensures r.Success? <==> IsNumber(v)
    ensures r.Success? ==> r.value * 1000.0 == NumValue(v)
    ensures r.Failure? ==> r.error == TypeError
  {
    if IsNumber(v) then Success(NumValue(v) / 1000.0) else Failure(TypeError)
  }

  /** Python's `v == n` for an integer `n`. */
  predicate EqualsInt(v: PyVal, n: int) {
    IsNumber(v) && NumValue(v) == n as real
  }

  /** The entries of `appdata`. */
  datatype Entry =
    | Multipliers | DummyOut | FastClk | OScan | OScanY | Readout
    | XBin | YBin | Clear | LedFlash | Dwell | App
    | XSize(w: Win) | YSize(w: Win)
    | XStartLowerLeft(w: Win) | XStartLowerRight(w: Win)
    | XStartUpperLeft(w: Win) | XStartUpperRight(w: Win)
    | XStartLeft | XStartRight
    | YStart(w: Win)

  /** The dictionary key of each entry. */
  function Name(e: Entry): string {
    match e
    case Multipliers => "multipliers"
    case DummyOut => "dummy_out"
    case FastClk => "fastclk"
    case OScan => "oscan"
    case OScanY => "oscany"
    case Readout => "readout"
    case XBin => "xbin"
    case YBin => "ybin"
    case Clear => "clear"
    case LedFlash => "led_flsh"
    case Dwell => "dwell"
    case App => "app"
    case XSize(w) => "x" + WinDigit(w) + "size"
    case YSize(w) => "y" + WinDigit(w) + "size"
    case XStartLowerLeft(w) => "x" + WinDigit(w) + "start_lowerleft"
    case XStartLowerRight(w) => "x" + WinDigit(w) + "start_lowerright"
    case XStartUpperLeft(w) => "x" + WinDigit(w) + "start_upperleft"
    case XStartUpperRight(w) => "x" + WinDigit(w) + "start_upperright"
    case XStartLeft => "x1start_left"
    case XStartRight => "x1start_right"
    case YStart(w) => "y" + WinDigit(w) + "start"
  }

  /** The `appdata` dictionary. */
  type AppData = map<Entry, PyVal>

  /** The entries every setup has. */
  const CommonNames: set<Entry> := {
    Multipliers, DummyOut, FastClk, OScan, OScanY, Readout, XBin, YBin, Clear, LedFlash, Dwell, App}

  /** The entries of a window in windowed mode. */
  function WindowNames(w: Win): set<Entry> {
    {XSize(w), YSize(w), XStartLowerLeft(w), XStartLowerRight(w), XStartUpperLeft(w),
     XStartUpperRight(w), YStart(w)}
  }

  /** The entries of the drift window. */
  const DriftNames: set<Entry> := {XSize(W1), YSize(W1), XStartLeft, XStartRight, YStart(W1)}

  /** The five skip counts, `'DET NSKIPS{}'.format(i+1)` for `i` in `range(5)`. */
  const SkipCards: seq<Card> := [NSkips(1), NSkips(2), NSkips(3), NSkips(4), NSkips(5)]

  /** `multipliers` holds five numbers, each one more than its skip count
      (0 when the card is absent). */
  predicate MultipliersFrom(hdr: Header, v: PyVal) {
    && v.PList? && |v.items| == |SkipCards|
    && forall i :: 0 <= i < |SkipCards| ==>
         && IsNumber(v.items[i]) && IsNumber(Get(hdr, SkipCards[i], PInt(0)))
         && NumValue(v.items[i]) == NumValue(Get(hdr, SkipCards[i], PInt(0))) + 1.0
  }

  /** `1 + get(card, 0)`. */
  function SkipMultiplier(hdr: Header, c: Card): Result<PyVal, Exception> {
    AddOne(Get(hdr, c, PInt(0)))
  }

  /** `[1 + get('DET NSKIPS{}'.format(i+1), 0) for i in range(5)]`. */
  function SkipMultipliers(hdr: Header): (r: Result<seq<PyVal>, Exception>)
    ensures r.Success? <==> forall i :: 0 <= i < |SkipCards| ==> IsNumber(Get(hdr, SkipCards[i], PInt(0)))
    ensures r.Success? ==> MultipliersFrom(hdr, PList(r.value))
    ensures r.Failure? ==> r.error == TypeError
  {
    MapAll(SkipCards, c => SkipMultiplier(hdr, c))
  }

  /** The converted flag and timing values of the common entries. */
  datatype Flags = Flags(oscan: int, oscany: int, clear: int, ledFlash: int, dwell: real)

  /** When the flags convert: the four flag cards convert to integers and the
      exposure time is a number. */
  predicate FlagsConvertible(hdr: Header, intOfText: string -> Option<int>) {
    && IntOf(Get(hdr, IncPrescanX, PBool(false)), intOfText).Success?
    && IntOf(Get(hdr, IncOverscanY, PBool(false)), intOfText).Success?
    && IntOf(Get(hdr, ClearCcd, PBool(true)), intOfText).Success?
    && IntOf(Get(hdr, ExposeLed, PBool(false)), intOfText).Success?
    && IsNumber(Get(hdr, TExpose, PReal(0.1)))
  }

  /** The flags are `int()` of their cards, with `False`, `False`, `True`
      and `False` for absent cards, and `dwell` is the exposure time (0.1 by
      default) divided by 1000. */
  predicate FlagsFrom(hdr: Header, intOfText: string -> Option<int>, f: Flags) {
    && IntOf(Get(hdr, IncPrescanX, PBool(false)), intOfText) == Success(f.oscan)
    && IntOf(Get(hdr, IncOverscanY, PBool(false)), intOfText) == Success(f.oscany)
    && IntOf(Get(hdr, ClearCcd, PBool(true)), intOfText) == Success(f.clear)
    && IntOf(Get(hdr, ExposeLed, PBool(false)), intOfText) == Success(f.ledFlash)
    && IsNumber(Get(hdr, TExpose, PReal(0.1)))
    && f.dwell * 1000.0 == NumValue(Get(hdr, TExpose, PReal(0.1)))
  }

  /** The conversions of the common entries after `multipliers`, in the
      order the source evaluates them. */
  function ConvertFlags(hdr: Header, intOfText: string -> Option<int>): (r: Result<Flags, Exception>)
    ensures r.Success? <==> FlagsConvertible(hdr, intOfText)
    ensures r.Failure? ==> r.error == TypeError || r.error == ValueError
    ensures r.Success? ==> FlagsFrom(hdr, intOfText, r.value)
  {
    var oscan :- IntOf(Get(hdr, IncPrescanX, PBool(false)), intOfText);
    var oscany :- IntOf(Get(hdr, IncOverscanY, PBool(false)), intOfText);
    var clear :- IntOf(Get(hdr, ClearCcd, PBool(true)), intOfText);
    var ledFlash :- IntOf(Get(hdr, ExposeLed, PBool(false)), intOfText);
    var dwell :- PerThousand(Get(hdr, TExpose, PReal(0.1)));
    Success(Flags(oscan, oscany, clear, ledFlash, dwell))
  }

  /** When the common entries can be built. */
  predicate CommonConvertible(hdr: Header, intOfText: string -> Option<int>) {
    && (forall i :: 0 <= i < |SkipCards| ==> IsNumber(Get(hdr, SkipCards[i], PInt(0))))
    && FlagsConvertible(hdr, intOfText)
  }

  /** The common entries copied or derived from cards: the multipliers;
      `dummy_out`, `fastclk`, `xbin` and `ybin` copied from their cards (0, 0,
      1 and 1 when absent); and `readout`, `'Slow'` exactly when the speed card
      (0 when absent) equals 0 and `'Fast'` otherwise. */
  predicate CardValuesFrom(hdr: Header, m: AppData) {
    && Multipliers in m && MultipliersFrom(hdr, m[Multipliers])
    && DummyOut in m && m[DummyOut] == Get(hdr, Dummy, PInt(0))
    && FastClk in m && m[FastClk] == Get(hdr, FastClock, PInt(0))
    && XBin in m && m[XBin] == Get(hdr, BinX, PInt(1))
    && YBin in m && m[YBin] == Get(hdr, BinY, PInt(1))
    && Readout in m && m[Readout].PStr?
    && (m[Readout].s == "Slow" <==> EqualsInt(Get(hdr, Speed, PInt(0)), 0))
    && (m[Readout].s == "Fast" <==> !EqualsInt(Get(hdr, Speed, PInt(0)), 0))
  }

  /** The converted common entries: the flags `int()` of their cards and
      `dwell` the exposure time divided by 1000. */
  predicate FlagValuesFrom(hdr: Header, intOfText: string -> Option<int>, m: AppData) {
    && OScan in m && m[OScan].PInt?
    && IntOf(Get(hdr, IncPrescanX, PBool(false)), intOfText) == Success(m[OScan].i)
    && OScanY in m && m[OScanY].PInt?
    && IntOf(Get(hdr, IncOverscanY, PBool(false)), intOfText) == Success(m[OScanY].i)
    && Clear in m && m[Clear].PInt?
    && IntOf(Get(hdr, ClearCcd, PBool(true)), intOfText) == Success(m[Clear].i)
    && LedFlash in m && m[LedFlash].PInt?
    && IntOf(Get(hdr, ExposeLed, PBool(false)), intOfText) == Success(m[LedFlash].i)
    && Dwell in m && m[Dwell].PReal? && IsNumber(Get(hdr, TExpose, PReal(0.1)))
    && m[Dwell].x * 1000.0 == NumValue(Get(hdr, TExpose, PReal(0.1)))
  }

  /** The values of all the common entries. */
  predicate CommonValuesFrom(hdr: Header, intOfText: string -> Option<int>, m: AppData) {
    CardValuesFrom(hdr, m) && FlagValuesFrom(hdr, intOfText, m)
  }

  /** The common entries taken from cards. */
  function CardEntries(hdr: Header, multipliers: seq<PyVal>): (m: AppData)
    requires MultipliersFrom(hdr, PList(multipliers))
    ensures m.Keys == {Multipliers, DummyOut, FastClk, Readout, XBin, YBin}
    ensures CardValuesFrom(hdr, m)
  {
    var readout := if EqualsInt(Get(hdr, Speed, PInt(0)), 0) then "Slow" else "Fast";
    map[
      Multipliers := PList(multipliers),
      DummyOut := Get(hdr, Dummy, PInt(0)),
      FastClk := Get(hdr, FastClock, PInt(0)),
      Readout := PStr(readout),
      XBin := Get(hdr, BinX, PInt(1)),
      YBin := Get(hdr, BinY, PInt(1))]
  }

  /** The common entries holding the converted flags. */
  function FlagEntries(hdr: Header, intOfText: string -> Option<int>, flags: Flags): (m: AppData)
    requires FlagsFrom(hdr, intOfText, flags)
    ensures m.Keys == {OScan, OScanY, Clear, LedFlash, Dwell}
    ensures FlagValuesFrom(hdr, intOfText, m)
  {
    map[
      OScan := PInt(flags.oscan),
      OScanY := PInt(flags.oscany),
      Clear := PInt(flags.clear),
      LedFlash := PInt(flags.ledFlash),
      Dwell := PReal(flags.dwell)]
  }

  /** The common entries built from the converted values. */
  function CommonEntries(hdr: Header, intOfText: string -> Option<int>, multipliers: seq<PyVal>, flags: Flags): (m: AppData)
    requires MultipliersFrom(hdr, PList(multipliers))
    requires FlagsFrom(hdr, intOfText, flags)
    ensures m.Keys == CommonNames - {App}
    ensures CommonValuesFrom(hdr, intOfText, m)
  {
    var cards := CardEntries(hdr, multipliers);
    var converted := FlagEntries(hdr, intOfText, flags);
    CommonHalves(cards, converted);
    UnionKeeps(cards, converted);
    CardValuesKept(hdr, cards, cards + converted);
    FlagValuesKept(hdr, intOfText, converted, cards + converted);
    cards + converted
  }

  /** The two halves of the common entries are apart and make up all but `app`. */
  lemma CommonHalves(a: AppData, b: AppData)
    requires a.Keys == {Multipliers, DummyOut, FastClk, Readout, XBin, YBin}
    requires b.Keys == {OScan, OScanY, Clear, LedFlash, Dwell}
    ensures a.Keys !! b.Keys && (a + b).Keys == CommonNames - {App}
  {
  }

  /** The card values stay right in a map that keeps every entry. */
  lemma CardValuesKept(hdr: Header, a: AppData, m: AppData)
    requires CardValuesFrom(hdr, a)
    requires forall e :: e in a ==> e in m && m[e] == a[e]
    ensures CardValuesFrom(hdr, m)
  {
  }

  /** The converted values stay right in a map that keeps every entry. */
  lemma FlagValuesKept(hdr: Header, intOfText: string -> Option<int>, a: AppData, m: AppData)
    requires FlagValuesFrom(hdr, intOfText, a)
    requires forall e :: e in a ==> e in m && m[e] == a[e]
    ensures FlagValuesFrom(hdr, intOfText, m)
  {
  }

  /** The entries every setup has, before `app` is set. */
  function Common(hdr: Header, intOfText: string -> Option<int>): (r: Result<AppData, Exception>)
    ensures r.Success? <==> CommonConvertible(hdr, intOfText)
    ensures r.Failure? ==> r.error == TypeError || r.error == ValueError
    ensures r.Success? ==> r.value.Keys == CommonNames - {App}
    ensures r.Success? ==> CommonValuesFrom(hdr, intOfText, r.value)
  {
    var multipliers :- SkipMultipliers(hdr);
    var flags :- ConvertFlags(hdr, intOfText);
    Success(CommonEntries(hdr, intOfText, multipliers, flags))
  }

  /** The `user` dictionary: observer, target and programme details, each
      with its default. */
  function User(hdr: Header): map<string, PyVal> {
    map[
      "Observers" := Get(hdr, Observer, PStr("")),
      "target" := Get(hdr, Object, PStr("")),
      "comment" := Get(hdr, RunComment, PStr("")),
      "flags" := Get(hdr, ImageType, PStr("data")),
      "filters" := Get(hdr, Filters, PStr("us,gs,rs,is,zs")),
      "ID" := Get(hdr, Programme, PStr("")),
      "PI" := Get(hdr, PrincipalInvestigator, PStr(""))]
  }

  /** One window's entries: the y-start, one more than the window's `YS`
      card, and the other entries copied from their cards (`None` when a
      card is absent). */
  function WindowEntries(hdr: Header, w: Win): (r: Result<AppData, Exception>)
    ensures r.Success? <==> IsNumber(Get(hdr, WinYS(w), PNone))
    ensures r.Success? ==> r.value.Keys == WindowNames(w)
    ensures r.Success? ==> WindowFrom(hdr, r.value, w)
    ensures r.Failure? ==> r.error == TypeError
  {
    var ystart :- AddOne(Get(hdr, WinYS(w), PNone));
    Success(map[
      XSize(w) := Get(hdr, WinNX(w), PNone),
      YSize(w) := Get(hdr, WinNY(w), PNone),
      XStartLowerLeft(w) := Get(hdr, WinXSLL(w), PNone),
      XStartLowerRight(w) := Get(hdr, WinXSLR(w), PNone),
      XStartUpperLeft(w) := Get(hdr, WinXSUL(w), PNone),
      XStartUpperRight(w) := Get(hdr, WinXSUR(w), PNone),
      YStart(w) := ystart])
  }

  /** The drift window's entries, named as window 1's. */
  function DriftEntries(hdr: Header): (r: Result<AppData, Exception>)
    ensures r.Success? <==> IsNumber(Get(hdr, DriftYS, PNone))
    ensures r.Success? ==> r.value.Keys == DriftNames
    ensures r.Success? ==> DriftFrom(hdr, r.value)
    ensures r.Failure? ==> r.error == TypeError
  {
    var ystart :- AddOne(Get(hdr, DriftYS, PNone));
    Success(map[
      XSize(W1) := Get(hdr, DriftNX, PNone),
      YSize(W1) := Get(hdr, DriftNY, PNone),
      XStartLeft := Get(hdr, DriftXSL, PNone),
      XStartRight := Get(hdr, DriftXSR, PNone),
      YStart(W1) := ystart])
  }

  /** The readout mode card's value, `None` when the card is absent. */
  function Mode(hdr: Header): PyVal {
    Get(hdr, ReadMode, PNone)
  }

  /** The readout modes `jsonFromFits` tells apart. */
  datatype ReadoutMode = OneWindow | TwoWindows | DriftMode | FullFrame

  /** Which branch of the mode test a card value takes: Python's `mode == 2`,
      `mode == 3` and `mode == 4` in turn, full frame for any other value or
      none. */
  function ModeOf(mode: PyVal): (m: ReadoutMode)
    ensures m == OneWindow <==> EqualsInt(mode, 2)
    ensures m == TwoWindows <==> EqualsInt(mode, 3)
    ensures m == DriftMode <==> EqualsInt(mode, 4)
    ensures !IsNumber(mode) ==> m == FullFrame
  {
    if EqualsInt(mode, 2) then OneWindow
    else if EqualsInt(mode, 3) then TwoWindows
    else if EqualsInt(mode, 4) then DriftMode
    else FullFrame
  }

  /** The application name of a mode. */
  function AppName(m: ReadoutMode): string {
    match m
    case OneWindow => "Windows"
    case TwoWindows => "Windows"
    case DriftMode => "Drift"
    case FullFrame => "FullFrame"
  }

  /** The entries a mode adds to the common ones. */
  function ModeNames(m: ReadoutMode): set<Entry> {
    match m
    case OneWindow => WindowNames(W1)
    case TwoWindows => WindowNames(W1) + WindowNames(W2)
    case DriftMode => DriftNames
    case FullFrame => {}
  }

  /** The y-start cards the header's mode needs are numbers. */
  predicate ModeCardsNumeric(hdr: Header) {
    match ModeOf(Mode(hdr))
    case OneWindow => IsNumber(Get(hdr, WinYS(W1), PNone))
    case TwoWindows => IsNumber(Get(hdr, WinYS(W1), PNone)) && IsNumber(Get(hdr, WinYS(W2), PNone))
    case DriftMode => IsNumber(Get(hdr, DriftYS, PNone))
    case FullFrame => true
  }

  /** Entry `e` is one more than card `c`. */
  predicate OneMore(a: AppData, e: Entry, hdr: Header, c: Card) {
    e in a && IsNumber(a[e]) && IsNumber(Get(hdr, c, PNone))
    && NumValue(a[e]) == NumValue(Get(hdr, c, PNone)) + 1.0
  }

  /** A window's entries: the y-start one more than the window's `YS` card,
      the sizes and x-starts copied from their cards (`None` when absent). */
  predicate WindowFrom(hdr: Header, a: AppData, w: Win) {
    && OneMore(a, YStart(w), hdr, WinYS(w))
    && XSize(w) in a && a[XSize(w)] == Get(hdr, WinNX(w), PNone)
    && YSize(w) in a && a[YSize(w)] == Get(hdr, WinNY(w), PNone)
    && XStartLowerLeft(w) in a && a[XStartLowerLeft(w)] == Get(hdr, WinXSLL(w), PNone)
    && XStartLowerRight(w) in a && a[XStartLowerRight(w)] == Get(hdr, WinXSLR(w), PNone)
    && XStartUpperLeft(w) in a && a[XStartUpperLeft(w)] == Get(hdr, WinXSUL(w), PNone)
    && XStartUpperRight(w) in a && a[XStartUpperRight(w)] == Get(hdr, WinXSUR(w), PNone)
  }

  /** The drift window's entries, under window 1's names: the y-start one
      more than the drift `YS` card, the rest copied from the drift cards. */
  predicate DriftFrom(hdr: Header, a: AppData) {
    && OneMore(a, YStart(W1), hdr, DriftYS)
    && XSize(W1) in a && a[XSize(W1)] == Get(hdr, DriftNX, PNone)
    && YSize(W1) in a && a[YSize(W1)] == Get(hdr, DriftNY, PNone)
    && XStartLeft in a && a[XStartLeft] == Get(hdr, DriftXSL, PNone)
    && XStartRight in a && a[XStartRight] == Get(hdr, DriftXSR, PNone)
  }

  /** The entries of the header's mode hold its windows' values; in
      particular every y-start is one more than its window's `YS` card. */
  predicate ModeValuesFrom(hdr: Header, a: AppData) {
    match ModeOf(Mode(hdr))
    case OneWindow => WindowFrom(hdr, a, W1)
    case TwoWindows => WindowFrom(hdr, a, W1) && WindowFrom(hdr, a, W2)
    case DriftMode => DriftFrom(hdr, a)
    case FullFrame => true
  }

  /** The common entries with `app` set and a mode's entries added; the
      mode's entries never overwrite a common one. */
  function WithApp(common: AppData, app: string, extra: AppData): (m: AppData)
    requires common.Keys == CommonNames - {App}
    requires extra.Keys !! CommonNames
    ensures m.Keys == CommonNames + extra.Keys
    ensures m[App] == PStr(app)
    ensures forall e :: e in common ==> m[e] == common[e]
    ensures forall e :: e in extra ==> m[e] == extra[e]
  {
    common[App := PStr(app)] + extra
  }

  /** Window 1's entries are the one-window mode's, none of them common. */
  lemma OneWindowKeys(a: AppData)
    requires a.Keys == WindowNames(W1)
    ensures a.Keys == ModeNames(OneWindow) && a.Keys !! CommonNames
  {
  }

  /** Both windows' entries are the two-window mode's, none of them common. */
  lemma TwoWindowKeys(a: AppData, b: AppData)
    requires a.Keys == WindowNames(W1) && b.Keys == WindowNames(W2)
    ensures (a + b).Keys == ModeNames(TwoWindows) && (a + b).Keys !! CommonNames
  {
    WindowNotCommon(W1);
    WindowNotCommon(W2);
    DisjointUnion(WindowNames(W1), WindowNames(W2), CommonNames);
  }

  /** No window entry is a common one. */
  lemma WindowNotCommon(w: Win)
    ensures WindowNames(w) !! CommonNames
  {
  }

  /** A union is disjoint from what both its halves are disjoint from. */
  lemma DisjointUnion<T>(x: set<T>, y: set<T>, z: set<T>)
    requires x !! z && y !! z
    ensures x + y !! z
  {
  }

  /** The drift window's entries are the drift mode's, none of them common. */
  lemma DriftKeys(a: AppData)
    requires a.Keys == DriftNames
    ensures a.Keys == ModeNames(DriftMode) && a.Keys !! CommonNames
  {
  }

  /** The entries the header's mode adds: none for full frame, window 1's
      for one window, both windows' for two, the drift window's for drift. */
  function ModeEntries(hdr: Header): (r: Result<AppData, Exception>)
    ensures r.Success? <==> ModeCardsNumeric(hdr)
    ensures r.Failure? ==> r.error == TypeError
    ensures r.Success? ==> r.value.Keys == ModeNames(ModeOf(Mode(hdr))) && r.value.Keys !! CommonNames
    ensures r.Success? ==> ModeValuesFrom(hdr, r.value)
  {
    match ModeOf(Mode(hdr))
    case OneWindow =>
      var w1 :- WindowEntries(hdr, W1);
      OneWindowKeys(w1);
      Success(w1)
    case TwoWindows =>
      BothWindows(hdr)
    case DriftMode =>
      var drift :- DriftEntries(hdr);
      DriftKeys(drift);
      Success(drift)
    case FullFrame =>
      Success(map[])
  }

  /** The entries of both windows, window 1's converted first. */
  function BothWindows(hdr: Header): (r: Result<AppData, Exception>)
    ensures r.Success? <==> IsNumber(Get(hdr, WinYS(W1), PNone)) && IsNumber(Get(hdr, WinYS(W2), PNone))
    ensures r.Failure? ==> r.error == TypeError
    ensures r.Success? ==> r.value.Keys == ModeNames(TwoWindows) && r.value.Keys !! CommonNames
    ensures r.Success? ==> WindowFrom(hdr, r.value, W1) && WindowFrom(hdr, r.value, W2)
  {
    var w1 :- WindowEntries(hdr, W1);
    var w2 :- WindowEntries(hdr, W2);
    TwoWindowKeys(w1, w2);
    WindowsApart();
    UnionKeeps(w1, w2);
    WindowKept(hdr, w1, w1 + w2, W1);
    WindowKept(hdr, w2, w1 + w2, W2);
    Success(w1 + w2)
  }

  /** The two windows' entries are distinct. */
  lemma WindowsApart()
    ensures WindowNames(W1) !! WindowNames(W2)
  {
  }

  /** A union of maps with disjoint keys keeps both maps' entries. */
  lemma UnionKeeps(a: AppData, b: AppData)
    requires a.Keys !! b.Keys
    ensures forall e :: e in a ==> e in a + b && (a + b)[e] == a[e]
    ensures forall e :: e in b ==> e in a + b && (a + b)[e] == b[e]
  {
  }

  /** A window's values stay right in a map that keeps every entry. */
  lemma WindowKept(hdr: Header, a: AppData, m: AppData, w: Win)
    requires WindowFrom(hdr, a, w)
    requires forall e :: e in a ==> e in m && m[e] == a[e]
    ensures WindowFrom(hdr, m, w)
  {
  }

  /** The mode's values stay right in a map that keeps every entry. */
  lemma ModeValuesKept(hdr: Header, a: AppData, m: AppData)
    requires ModeValuesFrom(hdr, a)
    requires forall e :: e in a ==> e in m && m[e] == a[e]
    ensures ModeValuesFrom(hdr, m)
  {
    match ModeOf(Mode(hdr))
    case OneWindow => WindowKept(hdr, a, m, W1);
    case TwoWindows => WindowKept(hdr, a, m, W1); WindowKept(hdr, a, m, W2);
    case DriftMode =>
    case FullFrame =>
  }

  /** The common values stay right in a map that keeps every entry. */
  lemma CommonValuesKept(hdr: Header, intOfText: string -> Option<int>, a: AppData, m: AppData)
    requires CommonValuesFrom(hdr, intOfText, a)
    requires forall e :: e in a ==> e in m && m[e] == a[e]
    ensures CommonValuesFrom(hdr, intOfText, m)
  {
    CardValuesKept(hdr, a, m);
    FlagValuesKept(hdr, intOfText, a, m);
  }

  /** The mode-dependent half of `jsonFromFits`: the application name and
      the mode's entries added to the common ones. */
  function AddModeEntries(hdr: Header, common: AppData): (r: Result<AppData, Exception>)
    requires common.Keys == CommonNames - {App}
    ensures r.Success? <==> ModeCardsNumeric(hdr)
    ensures r.Failure? ==> r.error == TypeError
    ensures r.Success? ==> r.value.Keys == CommonNames + ModeNames(ModeOf(Mode(hdr)))
    ensures r.Success? ==> r.value[App] == PStr(AppName(ModeOf(Mode(hdr))))
    ensures r.Success? ==> forall e :: e in common ==> r.value[e] == common[e]
    ensures r.Success? ==> ModeValuesFrom(hdr, r.value)
  {
    var extra :- ModeEntries(hdr);
    var m := WithApp(common, AppName(ModeOf(Mode(hdr))), extra);
    ModeValuesKept(hdr, extra, m);
    Success(m)
  }

  /** The rebuilt setup. */
  datatype Setup = Setup(appdata: AppData, user: map<string, PyVal>)

  /** `jsonFromFits`, before the final `json.dumps`: the common entries, the
      application the readout mode selects with its windows, and the user
      details. It raises exactly when a conversion fails. */
  function JsonFromFits(hdr: Header, intOfText: string -> Option<int>): (r: Result<Setup, Exception>)
    ensures r.Success? <==> CommonConvertible(hdr, intOfText) && ModeCardsNumeric(hdr)
    ensures r.Failure? ==> r.error == TypeError || r.error == ValueError
    ensures r.Success? ==> r.value.user == User(hdr)
    ensures r.Success? ==> r.value.appdata.Keys == CommonNames + ModeNames(ModeOf(Mode(hdr)))
    ensures r.Success? ==> r.value.appdata[App] == PStr(AppName(ModeOf(Mode(hdr))))
    ensures r.Success? ==> CommonValuesFrom(hdr, intOfText, r.value.appdata)
    ensures r.Success? ==> ModeValuesFrom(hdr, r.value.appdata)
  {
    var common :- Common(hdr, intOfText);
    var appdata :- AddModeEntries(hdr, common);
    CommonValuesKept(hdr, intOfText, common, appdata);
    Success(Setup(appdata, User(hdr)))
  }

  /** The readout mode card picks the application and its windows: 2 gives
      `'Windows'` with window 1, 3 gives `'Windows'` with windows 1 and 2, 4
      gives `'Drift'` with the drift window, and any other value, or no card,
      gives `'FullFrame'` with no window. With `JsonFromFits`, these are the
      `app` entry and the entries added to the common ones. */
  lemma ModeSelectsApp(mode: PyVal)
    ensures EqualsInt(mode, 2) ==>
      AppName(ModeOf(mode)) == "Windows" && ModeNames(ModeOf(mode)) == WindowNames(W1)
    ensures EqualsInt(mode, 3) ==>
      AppName(ModeOf(mode)) == "Windows" && ModeNames(ModeOf(mode)) == WindowNames(W1) + WindowNames(W2)
    ensures EqualsInt(mode, 4) ==>
      AppName(ModeOf(mode)) == "Drift" && ModeNames(ModeOf(mode)) == DriftNames
    ensures !EqualsInt(mode, 2) && !EqualsInt(mode, 3) && !EqualsInt(mode, 4) ==>
      AppName(ModeOf(mode)) == "FullFrame" && ModeNames(ModeOf(mode)) == {}
  {
  }
}
