# HiPERCAM widgets: parsers, decoders and the CORBA connection

This project models the pure logic inside the `hcam_widgets` package that
drives the HiPERCAM instrument GUI, and proves properties of that model. It
covers five parts:

- **GTC header strings** (`Headers`). The GTC telescope server describes its
  FITS header items as `;`-separated `name = value / comment` strings.
  `create_header_from_telpars` cuts that list into items. `parse_hstring`
  splits each item on runs of `=` and `/`, strips the pieces of whitespace
  and then of quotes, and calls `yield_three` to take the name, the value and
  the comment pieces.
- **Server replies and setups** (`Windows`, `ServerReply`, `FitsSetup`,
  `Simbad`). These cover:
  - the window `overlap` test;
  - the decision tree of `ReadServer.__init__`, which turns the server's
    JSON reply into `ok`, `err`, `state`, `clocks`, `run` and `msg`;
  - `jsonFromFits`, which rebuilds an instrument setup from a FITS header;
  - the line scan of `checkSimbad`, which collects the targets listed after
    the `::data::` marker of a Simbad page.
- **WHT telescope status** (`Tcs`). `getWhtTcs` reads `TCS.name -> type value`
  lines into a dictionary and looks up the pointing from it.
- **GTC CORBA connection** (`Corba`). The connection is a state machine with
  three states: raw, initialised and ready.
- **COMPO calibration** (`Compo`). This covers the pick-off tables, the
  sizes of the optics and the sign-symmetric lookup `field_stop_centre`.

Python strings are `seq<char>`. Python's `str` methods that the code relies
on (`strip`, `split`, `join`, `startswith`, `replace`) are modelled in
`Text`, each with what it returns. Each Python exception that escapes is a
`Failure` of the `Exception` datatype in `Wrappers`.

Calls into code outside the package become parameters of the model:

- JSON decoding;
- `float()` and `int()` on text;
- the sky-coordinate parser;
- the run-number regular expression;
- the `is 'ERR'` identity test;
- the cubic interpolants;
- the ORB and naming-service outcomes.

## Model

| member | source | states |
|---|---|---|
| Headers.YieldThree | hcam_widgets/gtc/headers.py:9-13 | Fails with an IndexError exactly when there are fewer than two items. Otherwise the input is its first item, its second item and the (possibly empty) rest, in that order. |
| Headers.SplitRuns | hcam_widgets/gtc/headers.py:22 | Splitting on runs of `=` and `/` always gives at least one piece, and no piece contains `=` or `/`. |
| Headers.SplitRunsJoin | hcam_widgets/gtc/headers.py:22 | Non-empty separator-free parts joined with single slashes split back into exactly those parts. |
| Headers.NonEmptyContents | hcam_widgets/gtc/headers.py:22 | `filter(None, …)` keeps every non-empty piece as often as it occurs and drops every empty one. |
| Headers.NonEmptyAppend | hcam_widgets/gtc/headers.py:22 | Dropping empty pieces commutes with concatenation. |
| Headers.ParseHString | hcam_widgets/gtc/headers.py:16-32 | Raises an IndexError exactly when fewer than two non-empty pieces remain after the split. The returned name and value never contain `=` or `/`. |
| Headers.ParseHStringParts | hcam_widgets/gtc/headers.py:21-31 | The name and value are the first two non-empty pieces, stripped of whitespace first and of quotes second. The comment is every later piece, cleaned the same way and joined with `/`; it is `''` when there is no later piece. |
| Headers.CleanKeepsSeparatorsOut | hcam_widgets/gtc/headers.py:22 | Stripping whitespace and quotes cannot bring an `=` or `/` into a piece. |
| Headers.ParseRenderPlain | hcam_widgets/gtc/headers.py:16-32 | An item `name = value` with bare name and value parses back to that name, that value and an empty comment. |
| Headers.ParseRender | hcam_widgets/gtc/headers.py:16-32 | Round trip: an item `name = value / c1/c2/…` with bare parts parses back to exactly that name, value and slash-joined comment. |
| Headers.CommentSeparatorsBecomeSlashes | hcam_widgets/gtc/headers.py:26-31 | A `=` inside the comment comes back as `/`, because the comment is rebuilt by joining its pieces with slashes. |
| Headers.StrippedFields | hcam_widgets/gtc/headers.py:48-49 | Stripping the fields and dropping the blank ones leaves no empty item. |
| Headers.TelparItems | hcam_widgets/gtc/headers.py:48-49 | No item built from the telescope strings is empty, and none contains `;`. |
| Headers.StrippedNoneIn | hcam_widgets/gtc/headers.py:48-49 | Stripping and filtering bring in no character that the fields kept out. |
| Headers.TelparItemsPerString | hcam_widgets/gtc/headers.py:48-49 | The items are, in order, the concatenation over the input strings of each string's own stripped, non-blank `;` fields. |
| Headers.ParseAll | hcam_widgets/gtc/headers.py:54 | Mapping `parse_hstring` over the items succeeds exactly when every item parses, with one result per item. Otherwise it raises the IndexError. |
| Headers.HeaderFromTelpars | hcam_widgets/gtc/headers.py:35-56 | The cards handed to `fits.Header` are one per item. The only exception that can escape is an IndexError. |
| Text.Strip | hcam_widgets/gtc/headers.py:22 | `str.strip` returns the slice after the leading run of the given characters. What follows the slice is all strippable. The result is empty exactly when every character is stripped, and otherwise neither end is strippable. |
| Text.StripPadded | hcam_widgets/gtc/headers.py:22 | Stripping removes padding made of the stripped characters and leaves an unpadded middle unchanged. |
| Text.Split | hcam_widgets/gtc/headers.py:48 | `str.split` on one character gives at least one part, and no part contains the separator. |
| Text.JoinSplit | hcam_widgets/gtc/headers.py:48 | Joining the parts of a split with the separator gives the string back. |
| Text.SplitJoin | hcam_widgets/gtc/headers.py:48 | Splitting the join of separator-free parts gives the parts back. |
| Text.SplitConcat | hcam_widgets/gtc/headers.py:48 | Splitting two strings joined by the separator is splitting each of them. |
| Text.SplitOn | hcam_widgets/misc.py:594 | `str.split` on a multi-character separator gives at least one part, and joining the parts back gives the string. The last part holds no separator. No other part holds one or runs into the separator after it. |
| Text.SplitOnJoin | hcam_widgets/misc.py:594 | Splitting the join of parts with the separator gives the parts back whenever the parts are as `SplitOn` promises. |
| Text.Find | hcam_widgets/misc.py:594 | `str.find` returns the first occurrence of the separator, or the length when there is none. |
| Text.Remove | hcam_widgets/tcs.py:39 | `str.replace(c, '')` removes every `c` and keeps every other character with its multiplicity. |
| Text.RemoveConcat | hcam_widgets/tcs.py:39 | Removal is piecewise: removing from a concatenation is removing from each half. With `Text.RemoveOne`, which drops the character only when it is the removed one, this fixes the order of the characters kept. |
| Windows.OverlapSymmetric | hcam_widgets/misc.py:140-145 | Swapping the two windows does not change the answer. |
| Windows.OverlapIffCommonPixel | hcam_widgets/misc.py:144-145 | For positive sizes, two windows overlap exactly when some integer pixel lies in both half-open windows. |
| Windows.CommonCorner | hcam_widgets/misc.py:144-145 | When positive-size windows overlap, the larger lower-left corner is a pixel of both. |
| Windows.SharedEdgeNoOverlap | hcam_widgets/misc.py:144-145 | Windows that only share an edge do not overlap. |
| Json.HasKey | hcam_widgets/misc.py:71 | `key in root` tests a dictionary's keys, a list's elements and a string's substrings. It raises a TypeError for a number, a boolean or `None`. |
| Json.Lookup | hcam_widgets/misc.py:78-89 | `root[key]` yields a dictionary's value. It raises a KeyError naming a missing key, and a TypeError for anything that is not a dictionary. |
| ServerReply.ReadServer | hcam_widgets/misc.py:49-134 | An undecodable reply gives `ok` false. When the constructor returns, `ok` means `err` is empty, and with `status_msg` a failed `ok` carries a message. The run is never negative. `msg` is set only without `status_msg`. No exception that the code catches escapes. |
| ServerReply.OkIffHealthy | hcam_widgets/misc.py:59-114 | `ok` holds exactly when the reply is a dictionary with `RETCODE` and one of two things holds: without `status_msg`, `RETCODE` is `"OK"`; with it, neither the state nor the clock field is the `ERR` marker. |
| ServerReply.Undecodable | hcam_widgets/misc.py:59-68 | An undecodable reply gives `ok` false, the fixed message, `state` and `clocks` `None`, and an empty root. |
| ServerReply.NoRetcode | hcam_widgets/misc.py:71-76 | A reply without `RETCODE` gives `ok` false, the fixed message and `state`/`clocks` `None`. |
| ServerReply.PlainReply | hcam_widgets/misc.py:78-86 | Without `status_msg`, `ok` holds exactly when `RETCODE` is `"OK"`. `run` is 0, `err` is `''` and `msg` is the message buffer. A reply without a message buffer raises a KeyError. |
| ServerReply.StatusReply | hcam_widgets/misc.py:88-134 | With `status_msg` and state and clock fields that are not the `ERR` marker, `ok` is true whatever `RETCODE` says. `state` and `clocks` are copied verbatim and a run is set. |
| ServerReply.RunNumber | hcam_widgets/misc.py:116-134 | The run is n for `success` or `aborted` and n+1 for `integrating`. It is 0 for any other exposure state and when no number can be extracted, and it is never negative. |
| FitsSetup.AddOne | hcam_widgets/misc.py:324 | `1 + v` is a number one larger than `v`, a float exactly when `v` is, and a TypeError for a non-number. |
| FitsSetup.IntOf | hcam_widgets/misc.py:327-333 | `int(v)` truncates a number toward zero and parses text. It raises a ValueError for unparsable text and a TypeError for anything else. |
| FitsSetup.PerThousand | hcam_widgets/misc.py:334 | `v / 1000` is the number that gives `v` back when multiplied by 1000, and a TypeError for a non-number. |
| FitsSetup.SkipMultipliers | hcam_widgets/misc.py:324 | There are five multipliers, each one more than its `NSKIPS` card (default 0). It raises a TypeError exactly when some such card is not a number. |
| FitsSetup.ConvertFlags | hcam_widgets/misc.py:327-334 | The flag conversions succeed exactly when every card converts, and fail only with a TypeError or a ValueError. `oscan`, `oscany`, `clear` and `led_flsh` are `int()` of their cards, which default to False, False, True and False. `dwell` is the exposure time (default 0.1) divided by 1000. |
| FitsSetup.Common | hcam_widgets/misc.py:323-336 | The common entries are built exactly when every conversion succeeds, and hold the twelve common keys except `app`. The multipliers are one more than their `NSKIPS` cards. `dummy_out`, `fastclk`, `xbin` and `ybin` are copied from their cards, with defaults 0, 0, 1 and 1. `readout` is `'Slow'` exactly when the speed card (default 0) equals 0, and `'Fast'` otherwise. The flags are `int()` of their cards, and `dwell` is the exposure time divided by 1000. |
| FitsSetup.WindowEntries | hcam_widgets/misc.py:353-359 | A window's entries are exactly its seven keys. The sizes and the four x-starts are copied from their `NX`, `NY`, `XSLL`, `XSLR`, `XSUL` and `XSUR` cards (None when absent). The y-start is one more than the `YS` card. They raise a TypeError exactly when `YS` is not a number. |
| FitsSetup.DriftEntries | hcam_widgets/misc.py:380-384 | The drift window's entries are named as window 1's. The sizes and the left and right x-starts are copied from the `DRWIN` `NX`, `NY`, `XSL` and `XSR` cards (None when absent). The y-start is one more than the drift `YS` card, and a TypeError is raised exactly when that card is not a number. |
| FitsSetup.ModeOf | hcam_widgets/misc.py:349-386 | Mode 2 selects one window, 3 two windows and 4 drift; any other value or an absent card selects full frame. |
| FitsSetup.ModeSelectsApp | hcam_widgets/misc.py:349-386 | Mode 2 selects `'Windows'` with window 1's entries, and 3 selects `'Windows'` with both windows'. Mode 4 selects `'Drift'` with the drift window's, and any other or absent mode selects `'FullFrame'` with none. |
| FitsSetup.TwoWindowKeys | hcam_widgets/misc.py:360-376 | The two windows' entries are disjoint from each other and from the common ones. |
| FitsSetup.BothWindows | hcam_widgets/misc.py:360-376 | Two-window mode fails, with a TypeError, exactly when either window's `YS` card is not a number. The result holds both windows' entries with their card values, neither overwriting the other. |
| FitsSetup.AddModeEntries | hcam_widgets/misc.py:349-386 | The mode sets `app` to `'Windows'`, `'Drift'` or `'FullFrame'` and adds exactly its windows' entries. Every common entry is kept. Each window entry holds its card's value, and every y-start is its card plus one. |
| FitsSetup.JsonFromFits | hcam_widgets/misc.py:314-392 | The setup is built exactly when every conversion succeeds. Its `appdata` keys are the common ones plus the mode's, and `app` is named by the mode. The multipliers are 1 + NSKIPS. The copied cards have their defaults. `readout` is `'Slow'` exactly when the speed is 0. The flags are `int()` of their cards, and `dwell` is the exposure time / 1000. The window entries are their cards, and every y-start is YS + 1. `user` holds the header's details with their defaults. |
| Simbad.ParseTarget | hcam_widgets/misc.py:594-597 | A target line is accepted exactly when the text after `Target:` splits into two parts at `' \| '`; otherwise the unpacking raises a ValueError. The frame is `'ICRS'`. |
| Simbad.ParsedTarget | hcam_widgets/misc.py:594-597 | An accepted line is `Target:` + name + `' \| '` + position, where the name does not run into the bar and the position holds none. The result holds the name and the position stripped. |
| Simbad.TargetLineParses | hcam_widgets/misc.py:594-597 | Conversely, every such line is accepted, with the name and the position stripped and the frame `'ICRS'`. |
| Simbad.CheckSimbad | hcam_widgets/misc.py:584-603 | The only exception that can escape is a ValueError. Every result is in the ICRS frame. The warning fires exactly when an error marker was seen and there are results. |
| Simbad.AllIcrs | hcam_widgets/misc.py:593-597 | Every collected result has frame `'ICRS'`. |
| Simbad.BeforeDataIgnored | hcam_widgets/misc.py:589-593 | Lines before the first `::data::` line contribute nothing. |
| Simbad.NoDataNoResults | hcam_widgets/misc.py:589-593 | A page without a `::data::` line yields no results. |
| Simbad.OneResultPerLine | hcam_widgets/misc.py:593-597 | A successful scan has one result per `Target:` line read once the marker has been seen. |
| Simbad.Scan | hcam_widgets/misc.py:584-603 | The loop with its two flags computes the same results and warning as the scan. |
| Tcs.MatchLine | hcam_widgets/tcs.py:28-36 | A match has word-character name and type, a value without a line break, and the line starts with the pattern's text rebuilt from the groups. |
| Tcs.MatchBuilt | hcam_widgets/tcs.py:28-38 | The match is unique: any line of the pattern's shape matches with exactly the groups it was built from. The name is the maximal word run after `TCS.` and the value is what follows the type and one space. |
| Tcs.Convert | hcam_widgets/tcs.py:39-44 | Every brace is removed and every other character is kept. The value is a number exactly when `float()` accepts the cleaned text, and otherwise it is the cleaned text. |
| Tcs.ParseLine | hcam_widgets/tcs.py:30-45 | A line that does not start with `TCS.`, or does not match, contributes nothing. A matching line sets its name. |
| Tcs.NonTcsIgnored | hcam_widgets/tcs.py:30-32 | Adding a non-`TCS.` line does not change the dictionary. |
| Tcs.KeysFromLines | hcam_widgets/tcs.py:29-45 | The dictionary holds exactly the names that some line sets. |
| Tcs.LastLineWins | hcam_widgets/tcs.py:45 | Each name's value comes from the last line that sets it. |
| Tcs.ParseListing | hcam_widgets/tcs.py:27-45 | The loop builds the dictionary that the listing defines. |
| Tcs.ReadPointing | hcam_widgets/tcs.py:47-52 | A pointing is read exactly when RA and DEC are present as text, the parser accepts `RA + ' ' + DEC`, and `skyPa` and `focus` are present. The steps fail in source order: a missing RA raises KeyError(RA) and a numeric RA a TypeError. With RA text, a missing DEC raises KeyError(DEC) and a numeric DEC a TypeError. Then a parser failure comes, then KeyError(skyPa) and KeyError(focus). The position angle and focus are copied. |
| Tcs.GetWhtTcs | hcam_widgets/tcs.py:27-53 | A pointing is returned exactly when the parsed listing has RA and DEC as text that the parser accepts, and has `skyPa` and `focus`. It is returned only when every required name was parsed. A KeyError names a required name that no line set. |
| Tcs.MissingKey | hcam_widgets/tcs.py:29-47 | A required name is missing exactly when no `TCS.` line matches with that name. |
| Corba.NewConnection | hcam_widgets/gtc/corba.py:12-13 | A new connection starts raw and holds no references. |
| Corba.InitOrb | hcam_widgets/gtc/corba.py:37-94 | Succeeds only in raw with a started ORB, moving to initialised. In the other states it raises 'ORB already initialised'. A failure leaves the connection unchanged. |
| Corba.ResolveNameService | hcam_widgets/gtc/corba.py:47-99 | Raises 'ORB not initialised' in raw and 'NameService already resolved' in ready. In initialised, a context moves to ready, and a transient error or a `None` context raises an IOError. A failure leaves the connection unchanged. |
| Corba.GetObject | hcam_widgets/gtc/corba.py:51-115 | Raises in raw and in initialised, so only ready returns an object. It never changes the connection and raises an IOError for a transient error or a `None` narrowed object. |
| Corba.Apply | hcam_widgets/gtc/corba.py:15-29 | Any call keeps the references consistent with the state and moves the state forward by at most one. |
| Corba.RunMovesForward | hcam_widgets/gtc/corba.py:15-115 | Over any sequence of calls, states only advance raw → initialised → ready, at most one per call. |
| Corba.ReadyTakesTwoCalls | hcam_widgets/gtc/corba.py:12-115 | A new connection needs at least two calls before it is ready. |
| Compo.TablesShape | hcam_widgets/compo.py:20-25 | Each table has 14 entries. The angles run from 0 to 65 degrees in strictly increasing 5-degree steps, and both offsets are 0 at angle 0 and increase with it. |
| Compo.SizesAgreeWithPlateScale | hcam_widgets/compo.py:26-29 | The four sizes are their pixel counts (330, 300, 485, 560) at 0.081 arcsec per pixel. |
| Compo.Symmetry | hcam_widgets/compo.py:38-49 | The field stop centre's X is odd in the angle and its Y is even. |
| Compo.AtTableAngles | hcam_widgets/compo.py:38-49 | At a tabulated angle or its negative, the field stop centre is the table entry, with X's sign following the angle's. |
| Compo.FieldStopCentres | hcam_widgets/compo.py:45-48 | For an array of angles, the result is the scalar rule applied to each angle. |

## Left out

- Network, subprocess and file I/O, and the functions that are only such glue:
  - `fits.getheader`, `urllib` and the Simbad query;
  - `subprocess.check_output` and its timeout in `getWhtTcs`;
  - `getGtcTcs`;
  - in misc.py, the nodding, posting, saving, execution and polling helpers and `createJSON`;
  - `FifoThread`, whose point is relaying thread exceptions.
- The Tk user interface, including `COMPOSetupWidget`.
- Foreign calls are parameters of the model rather than definitions:
  - JSON decoding and `json.dumps`;
  - `float()` and `int()` on text;
  - astropy's `SkyCoord`;
  - the run-number regular expression `\D*(\d*).*.fits`, with its backtracking corner cases;
  - the `is 'ERR'` identity test;
  - scipy's cubic interpolants.
- The result of `json.dumps` in `jsonFromFits` is not modelled: the model stops at the setup dictionary.
- The `fits.Header` that `create_header_from_telpars` builds is not modelled. The model stops at the list of parsed cards, and FITS card validation and its suppressed warnings are not represented.
- Warnings and log messages are not modelled: the Simbad warning is the `warned` flag, and the "no match" warning of `getWhtTcs` is not represented.
- Floating point is exact reals.
- Astropy units are plain reals in fixed units: degrees for angles, arcminutes for offsets, arcseconds for sizes. Conversion of other angle units to degrees is not modelled.
- Setting the ORB's environment variables in corba.py is not modelled. The references the ORB hands back are opaque numbers.
- Tcs.MatchLine: `\w` is modelled as ASCII letters, digits and underscore. Python's Unicode word characters beyond ASCII are not included.
- Headers.HeaderFromTelpars: states only the card count and the error kind. The content of each card is stated by Headers.ParseAll and Headers.ParseHStringParts.
- The byte decoding and JSON parsing of a server reply are one parameter of the model: the decoded value, or `None` when either step raises.
