# TelegramGiftsChart in Dafny

This is a model of the computational core of TelegramGiftsChart, a Telegram
bot that answers a gift name with a price card. The card holds the gift's
picture, its current price in TON, stars and dollars, the change from its
highest recent price, and a chart of the last twelve hours of marketplace
listings. The model covers:

- the series normaliser (`get_price_history`, `get_current_price`);
- the chart geometry (`generate_chart_image` up to drawing);
- the card helpers (`hex_to_rgb`, `format_number`, the backdrop palette, the
  percent badge, the display name, the picture fallbacks, the layout
  arithmetic);
- the bot's request logic: name clean-up, aliases, suggestions, rate limit,
  merge of the current price, percent change, stars;
- the command-line script `bin/test.py`;
- the aggregates of `src/utils/utils.py`;
- the gift-id lookup.

Conventions:

- Prices are exact `real` numbers.
- Timestamps are integers counting microseconds.
- Strings are ASCII `seq<char>`.
- Everything the program gets from outside is an argument: the clock, the
  marketplace and image-server answers, font availability, measured text
  sizes, the random backdrop choice, the random placeholder prices.

Files and modules:

| file | module | source |
|---|---|---|
| `wrappers.dfy` | `Wrappers` | `Option` and `Result` |
| `text.dfy` | `Text` | the `str` methods the program uses (`lower`, `strip`, `split`, `endswith`, `in`, `title`) |
| `price_series.dfy` | `Series` | price points, the stable sort by time, `min`/`max`/`sum`/`index` |
| `api_client.dfy` | `ApiClient` | `src/api/api_client.py` |
| `chart_layout.dfy` | `ChartLayout` | `src/generators/chart_generator.py` |
| `card.dfy` | `Card` | `src/generators/card_generator.py` |
| `gift_images.dfy` | `GiftImages` | `src/utils/gift_image_utils.py` |
| `bot.dfy` | `Bot` | `bin/bot.py`, and the rate-limit table of `src/database/database.py` |
| `test_main.dfy` | `TestMain` | `bin/test.py` |
| `utils.dfy` | `Utils` | `src/utils/utils.py` |

The form follows the source:

- **Loops become methods with invariants, each proved against a function:**
  - the listing filter (`CollectInWindow`);
  - the points, markers and time-label grouping and placement of the chart;
  - the suggestion builder, with its `break`;
  - the merge that appends and sorts again;
  - the aggregates of `utils.py`.
- **The request pipelines are methods** (`GenerateAndSendChart`,
  `HandleGiftRequest`, and `RunScript` with `RenderCard`). Their contracts
  give the reply case by case: which inputs lead to which failure, the
  exact condition for success, and what a success carries.
- **The per-user rate-limit table is a class** (`Bot.RateLimitStore`) that the handler updates.
- **Pure expressions stay functions.**

Three edge cases the code settles:

- **A one-point series.** The chart divides by `num_points - 1`
  (`chart_generator.py:116`), so a one-point series cannot be drawn.
  - The model returns `DivisionByZero` (`ChartLayout.GenerateChart`).
  - In the bot this becomes the generic failure reply (`Bot.SinglePointFails`).
  - In `bin/test.py` it is an uncaught crash (`TestMain.RenderCard`).
- **200 evenly spaced listings.** The step is 2, so the last position holds
  input point 158, not the last input point 199
  (`ApiClient.DownsampleMayDropLast`).
- **Downsampling length.** More than 80 listings always give exactly 80
  points (`ApiClient.DownsampleSpec`).

## Model

| member | source | states |
|---|---|---|
| Series.Prices | src/generators/chart_generator.py:89 | one price per point, in order |
| Series.SortByTimeSpec | src/api/api_client.py:99 | sorting by time gives a time-ordered permutation that keeps the input order of points with equal times (stable) |
| Series.SortedIsFixed | bin/bot.py:299 | sorting an already time-ordered series changes nothing |
| Series.Max | src/generators/chart_generator.py:98 | `max` is an element of the prices and bounds every price from above |
| Series.Min | src/generators/chart_generator.py:97 | `min` is an element of the prices and bounds every price from below |
| Series.FirstIndex | src/generators/chart_generator.py:105-106 | `list.index` finds the first position holding the value |
| ApiClient.CollectInWindow | src/api/api_client.py:81-93 | the filtering loop yields exactly the listings the per-item rule keeps, in order, or nothing when a TypeError escapes |
| ApiClient.InWindowSpec | src/api/api_client.py:83-93 | every collected point lies in the closed window [now-12h, now] and comes from a kept listing; every kept listing is collected; the collection aborts iff some listing raises TypeError |
| ApiClient.SkippedListingIsInvisible | src/api/api_client.py:91-93 | a malformed listing is skipped and later listings are processed as if it were absent |
| ApiClient.StrideAt | src/api/api_client.py:103 | the k-th point of the stride is input point k*step |
| ApiClient.StrideLength | src/api/api_client.py:103 | the stride holds at least m points when m*step fits in the input |
| ApiClient.DownsampleSpec | src/api/api_client.py:101-108 | at most 80 points pass unchanged; more give exactly 80, the k-th being input point k*(len div 80) |
| ApiClient.DownsampleSubsequence | src/api/api_client.py:101-108 | the thinned series has at most 80 input points, keeps time order and the first point |
| ApiClient.DownsampleMayDropLast | src/api/api_client.py:102-105 | with 200 inputs the last output is input 158, not the last input |
| ApiClient.GetPriceHistory | src/api/api_client.py:49-112 | the method returns the history function's value for the credentials, the API answer and the clock |
| ApiClient.PriceHistorySpec | src/api/api_client.py:54-108 | the history has at most 80 points, sorted, each in the window and each a kept listing; no credentials or a non-list answer give []; at most 80 survivors come back whole, sorted |
| ApiClient.NonObjectEmptiesHistory | src/api/api_client.py:83-112 | one element of the answer that is not an object, wherever it stands, makes the history empty |
| ApiClient.CurrentPrice | src/api/api_client.py:28-47 | a price exactly when there are credentials, a first listing that is an object, and a truthy convertible price; a zero price gives None; a `true` price reads as 1.0 |
| ChartLayout.ChartPrices | src/generators/chart_generator.py:84-91 | the series' prices in order, or exactly the 24 placeholder prices when there is no series; never empty |
| ChartLayout.TrendColor | src/generators/chart_generator.py:93-94 | green iff the last price is at least the first, red iff below |
| ChartLayout.PriceBoundsSpec | src/generators/chart_generator.py:97-103 | the padded range strictly contains every price; a flat series is padded by 1; otherwise the range grows by 20% |
| ChartLayout.NormalizedBetween | src/generators/chart_generator.py:117 | a price in [lo, hi] normalises strictly inside (0, 1), to 0.5 for a flat range, monotonically |
| ChartLayout.NormalizedSpec | src/generators/chart_generator.py:117 | every series price normalises strictly inside (0, 1), a flat series to 0.5, order kept |
| ChartLayout.XSpec | src/generators/chart_generator.py:116 | first point at the left padding, last at width minus the right padding, strictly increasing in between |
| ChartLayout.ClampY | src/generators/chart_generator.py:119 | y is at least 2 and at most height-27; values inside that band pass unchanged |
| ChartLayout.ClampedInverse | src/generators/chart_generator.py:117-119 | a higher normalised price never gets a larger clamped y (the y axis points down) |
| ChartLayout.YBetween | src/generators/chart_generator.py:117-119 | over a padded range, a higher price never gets a larger y |
| ChartLayout.YSpec | src/generators/chart_generator.py:117-119 | every y of a series lies in [2, height-27], and a higher price never gets a larger y |
| ChartLayout.ComputePoints | src/generators/chart_generator.py:114-120 | one point per price, point i at (x of i, clamped y of price i) |
| ChartLayout.MarkerIndices | src/generators/chart_generator.py:122-125 | returns `Markers(n)`: [0, n//4, n//2, 3n//4, n-1] once n >= 8, else [0, n-1] |
| ChartLayout.MarkersSpec | src/generators/chart_generator.py:122-125 | for n >= 1 points: five markers once n >= 8 and two otherwise, the first index 0 and the last n-1, all in range and non-decreasing |
| ChartLayout.PriceLabelAt | src/generators/chart_generator.py:193-202 | two decimals below 20 and one from 20 up; the label sits right of the plot, vertically centred on its point |
| ChartLayout.SampleIndexSpec | src/generators/chart_generator.py:156-161 | the five samples start at the first point, end at the last, never go back, and the min never cuts |
| ChartLayout.SampleKeys | src/generators/chart_generator.py:160-163 | five label keys, one per sample |
| ChartLayout.Slots | src/generators/chart_generator.py:165-166 | five label slots |
| ChartLayout.SlotsFor | src/generators/chart_generator.py:168-170 | a label text has slots exactly when it was sampled |
| ChartLayout.FirstSeen | src/generators/chart_generator.py:168-172 | the distinct label texts, each once, in the order they first appear: the key order of the dictionary |
| ChartLayout.FindGroup | src/generators/chart_generator.py:168 | the dictionary lookup finds the group holding the key, or reports that none does |
| ChartLayout.AddNewGroup | src/generators/chart_generator.py:168-170 | a new label text opens a group holding its slot, keeping the grouping exact |
| ChartLayout.AddToGroup | src/generators/chart_generator.py:170 | a known label text appends its slot to its group, keeping the grouping exact |
| ChartLayout.AddSlot | src/generators/chart_generator.py:167-170 | one sample keeps the grouping exact and in first-seen order |
| ChartLayout.GroupTimeLabels | src/generators/chart_generator.py:158-170 | the dictionary holds one group per sampled label text, in first-seen order, each with exactly the slots it was sampled at |
| ChartLayout.LabelX | src/generators/chart_generator.py:179-183 | the text is centred on its slot, or pushed back to the left or right padding, and stays inside when it fits |
| ChartLayout.PlaceTimeLabels | src/generators/chart_generator.py:172-183 | one label per group, in order, placed at the mean of the group's slots |
| ChartLayout.TimeLabelsFor | src/generators/chart_generator.py:153-183 | the time axis: as many labels as distinct sampled texts |
| ChartLayout.GroupLabelsInOrder | src/generators/chart_generator.py:172-183 | labels placed group by group for the sample groups are the time axis: first-seen order, each at the clamped mean of its slots |
| ChartLayout.TimeLabelsForSpec | src/generators/chart_generator.py:153-183 | one to five labels with distinct texts, exactly the sampled texts |
| ChartLayout.SeenBound | src/generators/chart_generator.py:168-172 | no more distinct label texts than samples |
| ChartLayout.MeanWithin | src/generators/chart_generator.py:173 | the mean of values in [lo, hi] lies in [lo, hi] |
| ChartLayout.MeanBetween | src/generators/chart_generator.py:173 | a merged label's mean slot lies between its smallest and largest slot |
| ChartLayout.GenerateChart | src/generators/chart_generator.py:71-202 | no font gives the failure result; a one-point series divides by zero; otherwise the points, colour, exact markers and the two price labels (decimals, position, each centred with the height of its own text) of the (placeholder-filled) prices, and for two or more points the time axis of `TimeLabelsFor` |
| ChartLayout.LabelOf | src/generators/chart_generator.py:193-202 | the label of the price at an index, at that index and price, placed by its point |
| ChartLayout.TimeAxisLabels | src/generators/chart_generator.py:153-183 | no time labels below two points; otherwise exactly the labels of `TimeLabelsFor`, texts in first-seen order and positions included |
| Card.ParseInt16 | src/generators/card_generator.py:77 | `int(s, 16)` on a piece of at most two characters gives a value in (-16, 256) or fails |
| Card.StripHashes | src/generators/card_generator.py:76 | `lstrip('#')` leaves text that does not start with `#` |
| Card.StripHashesSpec | src/generators/card_generator.py:76 | the input is a run of `#` followed by what `lstrip('#')` leaves |
| Card.Pair | src/generators/card_generator.py:77 | the slice `s[i:i+2]` has at most two characters |
| Card.HexToRgb | src/generators/card_generator.py:75-77 | three components, each in (-16, 256), or failure where `int` raises |
| Card.ParseHexPair | src/generators/card_generator.py:77 | two hex digits read as 16*first + second |
| Card.HexByteValue | src/generators/card_generator.py:77 | the two-digit hex form of a byte reads back as the byte |
| Card.StripHashesPrefix | src/generators/card_generator.py:76 | any run of leading `#` is removed and nothing else |
| Card.HexRoundTrip | src/generators/card_generator.py:75-77 | decoding `#`s followed by the hex form of a colour gives the colour back |
| Card.LowerPairRoundTrip | src/generators/card_generator.py:77 | a lower-case hex pair decodes to a byte whose hex form is the pair |
| Card.StripHashesOfColor | src/generators/card_generator.py:76 | a `#rrggbb` colour loses exactly its `#` |
| Card.PairsOfColor | src/generators/card_generator.py:77 | the pairs read after the stripped `#` are the three two-digit slices |
| Card.WellFormedDecodes | src/generators/card_generator.py:75-77 | a `#rrggbb` colour decodes to valid bytes that re-encode to its six digits |
| Card.WithHex | src/generators/card_generator.py:80 | the filter keeps only entries that have their `hex` pair |
| Card.WithHexKeepsAll | src/generators/card_generator.py:80 | when every entry has `hex`, the filter keeps the palette whole |
| Card.PaletteWellFormed | src/generators/card_generator.py:48-60 | every palette entry holds two well-formed `#rrggbb` colours, so the filter keeps all eleven |
| Card.PaletteEntry | src/generators/card_generator.py:80 | the chosen entry of the filtered palette is the chosen palette entry |
| Card.RandomBackdropPair | src/generators/card_generator.py:79-83 | both colours of the chosen entry decode to valid RGB values that re-encode to the palette text |
| Card.Group | src/generators/card_generator.py:63 | digits grouped in threes gain one separator per full group of three |
| Card.GroupShape | src/generators/card_generator.py:63 | a character of the grouped text is a space exactly when a multiple of four characters follow it; the rest are digits |
| Card.GroupRemoveSpaces | src/generators/card_generator.py:63 | taking the spaces out of the grouped digits gives the digits back |
| Card.FormatNumberSpec | src/generators/card_generator.py:62-63 | taking the spaces out of the formatted number gives `str(n)`; it starts with `-` iff n < 0 |
| Card.Round2 | src/generators/card_generator.py:143 | rounding moves by at most 0.005, keeps the sign from 0.005 up, and gives 0 below it |
| Card.CardPrices | src/generators/card_generator.py:143-147 | the TON price is within 0.005 of stars*0.0053 and the dollar price within 0.005 of TON*2.9 |
| Card.PercentBadge | src/generators/card_generator.py:164-169 | "0" in black iff abs(change) < 0.005; green iff change >= 0.005; red iff change <= -0.005; a shown value is within 0.005 and not zero |
| Card.SpaceHyphens | src/generators/card_generator.py:136 | the spaced name never starts with a hyphen |
| Card.TitleCommutes | src/generators/card_generator.py:136 | title-casing commutes with spacing the hyphens |
| Card.CollapseUndoesSpacing | src/generators/card_generator.py:136 | collapsing " - " undoes spacing the hyphens |
| Card.DisplayNameIsTitle | src/generators/card_generator.py:136 | the displayed name equals `str.title` of the name: same length, per-character title rule |
| Card.GiftImage | src/generators/card_generator.py:122-133 | the remote picture iff the id is found and the server answers 200; otherwise the asset when it is named and exists; otherwise none |
| Card.CardOffset | src/generators/card_generator.py:94 | the card is centred on the background to within a pixel, at (80, 77) |
| Card.FrameOrigin | src/generators/card_generator.py:172-173 | the percent frame sits 30 in from the top and right edges and inside the card, at (949, 30) |
| Card.PercentTextOrigin | src/generators/card_generator.py:186-188 | the percent text is centred across the frame and lifted 2 pixels |
| Card.DrawCard | src/generators/card_generator.py:94-169 | the card shows the chosen palette entry decoded to valid colours whose hex text is the entry's, the picture by the server-then-asset rule, the title-cased name, the prices of `CardPrices`, the badge coloured by the change thresholds, at the centred offset |
| GiftImages.GetGiftIdByName | src/utils/gift_image_utils.py:23-26 | None iff no name matches ignoring case; otherwise the id of the first matching entry |
| GiftImages.LookupIgnoresCase | src/utils/gift_image_utils.py:24 | queries that differ only in letter case find the same id |
| GiftImages.ImageUrl | src/utils/gift_image_utils.py:38 | the URL is the fixed prefix, the id and `.png` |
| GiftImages.ImageUrlInjective | src/utils/gift_image_utils.py:38 | different ids give different URLs |
| GiftImages.FetchGiftImageById | src/utils/gift_image_utils.py:38-42 | a picture iff the status is 200, fetched from the id's URL |
| Text.Words | bin/bot.py:432 | `split()` yields non-empty words without whitespace |
| Text.WordsSpec | bin/bot.py:432 | `split()` by its three rules: blank text has no words, leading whitespace is ignored, a non-whitespace run up to whitespace or the end is the next word |
| Text.WordsEmpty | bin/bot.py:432 | a text has no words exactly when it is all whitespace |
| Text.BlankHasNoWords | bin/bot.py:432 | an all-whitespace text has no words |
| Text.TitleSpec | bin/test.py:258 | `str.title` upper-cases a letter that starts the text or follows a non-letter and lower-cases the other letters |
| Text.TitleIgnoresCase | bin/test.py:258 | `str.title` of a text and of its lower-case form agree |
| Text.TitleIdempotent | src/generators/card_generator.py:136 | title-casing twice is title-casing once |
| Text.DecimalRoundTrip | src/generators/card_generator.py:63 | the decimal digits of a number read back as the number |
| Bot.CleanGiftName | bin/bot.py:414-417 | the cleaned name has no whitespace at either end |
| Bot.CleanKeepsPlainName | bin/bot.py:414-417 | a stripped name without the " 12h" suffix is unchanged |
| Bot.CleanDropsSuffix | bin/bot.py:414-417 | a stripped name followed by " 12h" in any letter case comes out as the name |
| Bot.Lookup | bin/bot.py:421 | `dict.get`: None iff the key is absent; otherwise a value stored under the key |
| Bot.ResolveAlias | bin/bot.py:418-424 | the lower form matches the name; an alias with a non-empty canonical name is replaced by it; otherwise the name is kept |
| Bot.AliasPass | bin/bot.py:431-434 | the canonical names of exactly the aliases whose key holds a query word, each once |
| Bot.FirstAlias | bin/bot.py:431-434 | the first matching alias entry with a given canonical name, or the table length when none |
| Bot.AliasPassOrder | bin/bot.py:431-434 | the alias pass lists the canonical names in the order of the first matching alias entry of each |
| Bot.NamePass | bin/bot.py:436-441 | extends the list by matching gift names not yet present, without duplicates, stopping at five |
| Bot.IndexOf | bin/bot.py:437 | the first position of a name in the gift names, or their count |
| Bot.NamePassSpec | bin/bot.py:436-441 | the added names are new, in gift-name order; a matching new name is left out only when the list reached five, and then it comes after every added name |
| Bot.Shown | bin/bot.py:443 | at most five, a prefix of the list |
| Bot.BuildSuggestions | bin/bot.py:429-441 | the two loops, with the break, build exactly the specified suggestion list |
| Bot.SuggestionsSpec | bin/bot.py:429-443 | no duplicates; alias-derived names first; names only when the aliases gave fewer than five, then at most five; every entry matches a query word in its alias key or its lower-case name |
| Bot.SuggestionsOrder | bin/bot.py:429-441 | every matching alias contributes its canonical name, ordered by first matching entry; then the matching gift names in gift-name order; a matching name is missing only when the list is full and it would come later |
| Bot.BlankQueryGivesNothing | bin/bot.py:432 | an empty or all-whitespace query gives no suggestions |
| Bot.AliasPassNoWords | bin/bot.py:432 | with no query words no alias matches |
| Bot.NamePassNoWords | bin/bot.py:438 | with no query words no gift name matches |
| Bot.Trunc | bin/bot.py:410 | `int()` truncates toward zero |
| Bot.RateLimit | bin/bot.py:406-411 | wait iff a previous success lies less than 10 s back; the wait is 10 - trunc(elapsed) and, when the clock has not gone back, between 1 and 10, never shorter than the time left and less than a second longer |
| Bot.RateLimitStore.constructor | src/database/database.py:11-16 | the rate-limit table starts empty |
| Bot.RateLimitStore.Get | src/database/database.py:39-43 | a user's stored time, or None when the user has none |
| Bot.RateLimitStore.RecordSuccess | src/database/database.py:26-29 | insert-or-replace of the user's time, leaving the other users |
| Bot.MergeCurrentPrice | bin/bot.py:311-318 | the append-then-sort steps compute the merged series |
| Bot.AppendLatestStaysLast | bin/bot.py:318 | sorting after appending a point no earlier than all others leaves it last |
| Bot.MergeSpec | bin/bot.py:311-318 | for a sorted history stamped no later than now: the merge is sorted, keeps every point, grows by at most one, and ends on the current price; an equal last price leaves the history as it is, a different one adds exactly the stamped current price |
| Bot.MergeHoldsCurrent | bin/bot.py:312-318 | the merged series always holds the current price |
| Bot.PercentChange | bin/bot.py:337-341 | 0 for fewer than two points; otherwise division by zero exactly when the highest price is 0 |
| Bot.PercentOfSpec | bin/bot.py:341 | the change from a positive highest price to one no higher is non-positive, zero iff equal, and at least -100 for non-negative prices |
| Bot.PercentChangeSpec | bin/bot.py:337-341 | with the current price in the series and a positive highest price, the change is non-positive, zero iff current is the highest, and at least -100 |
| Bot.MergedChangeNonPositive | bin/bot.py:312-341 | after the merge the change shown is never positive when the highest price is positive |
| Bot.StarsSpec | bin/bot.py:334 | for a non-negative price, stars*0.0053 <= price < (stars+1)*0.0053 |
| Bot.GenerateAndSendChart | bin/bot.py:287-390 | no history or no current price fail before any chart, no font fails at the chart; the card is sent exactly when a font loads, the merged series has two or more points, its highest price is not zero and the photo goes out; a sent card carries the stars of the current price, the title-cased name and the badge of `PercentChange` of the merged series |
| Bot.SinglePointFails | bin/bot.py:312-318 | a one-point history showing the current price merges to one point, which the chart cannot draw |
| Bot.HandleGiftRequest | bin/bot.py:393-458 | "send text" exactly for no text and "unknown user" exactly for no user; a wait iff the rate limit says so, of the seconds it gives; past it, an unknown name gets the shown suggestions and a known one is processed under its resolved name, sent exactly when the chart succeeds; a success is recorded, at the store time, only when the card was sent, and the table is untouched otherwise |
| Bot.GiftNames | bin/bot.py:437 | the names of the gifts table, in order |
| TestMain.NormalizeGiftName | bin/test.py:258-259 | an alias gives its canonical name, any other input its title-cased form of the same length; the file name is the name plus `.png` |
| TestMain.NormalizeIgnoresCase | bin/test.py:258 | the name and file depend only on the lower-cased input |
| TestMain.NormalizeAgreesWithBot | bin/test.py:258 | for a clean alias with a non-empty canonical name, the script and the bot pick the same name |
| TestMain.NormalizedNameIsTitle | bin/test.py:258 | a non-alias comes out as its title-cased form, which the card's title rule keeps |
| TestMain.ConvertPriceData | bin/test.py:269-274 | the converted series equals the input: same order, prices and times |
| TestMain.MaxPrice | bin/test.py:326 | 0.0 for no data; otherwise a price of the series bounding all others |
| TestMain.RunScript | bin/test.py:292-355 | no current price stops the script, no font stops it at the chart; an empty history still gives a card with 0% change; a one-point merged series or a zero highest price divides by zero; every other case succeeds; a success carries the normalised name and file, the stars of the current price, the `PercentChange` of the merged series (non-positive when the highest price is positive) and its badge |
| TestMain.RenderCard | bin/test.py:326-355 | no font stops the script; a one-point series or a zero highest price divides by zero; every other series gives a card; a success carries the change against the highest price, the highest price, the name, the file, the stars and a card showing the title-cased name, those stars and the badge of the change |
| Utils.PricesOf | src/utils/utils.py:54 | one price per record, in order |
| Utils.FormatPriceData | src/utils/utils.py:17-23 | one formatted record per record, in order, with the same date and price |
| Utils.CalculateAveragePrice | src/utils/utils.py:35-40 | 0.0 for no records; otherwise the mean, which lies between the lowest and the highest price |
| Utils.GetPriceRange | src/utils/utils.py:52-55 | (0.0, 0.0) for no records; otherwise the lowest and the highest price, both prices of the records, bounding every price |
| Utils.AverageInsideRange | src/utils/utils.py:40 | the average lies inside the price range |

## Left out

- The Telegram machinery is not modelled:
  - message sending and deleting;
  - the processing message;
  - temporary PNG files;
  - polling and startup (`bin/bot.py:276-285, 460-466`).
  The handler returns the reply it would send instead.
- SQLite itself is not modelled: the rate-limit table is a map held by a class.
- The clock is not modelled. The three clock readings of a request are separate arguments:
  - the rate-limit check;
  - the stored success time;
  - the stamp of the current price.
- Network calls are not modelled: `portalsapi.marketActivity` and `requests.get`. Their answers are arguments:
  - the listings;
  - the current price;
  - the HTTP status.
  A network exception inside `fetch_gift_image_by_id` is not modelled.
- Randomness is not modelled:
  - the backdrop choice is an index argument;
  - the 24 placeholder prices are an argument.
- PIL rendering is not modelled: gradients, polygons, ellipses, pasting, resizing. Font loading becomes a boolean, and text sizes are arguments: a time label's width is a function of its text, a price label's height a function of its price.
- The fixed vertical position of the time labels (`height - BOTTOM_PADDING + 5`) is not part of `ChartLayout.TimeLabel`.
- Exceptions raised while composing the card are not modelled:
  - a missing `ton.png` asset;
  - the watermark font, which is loaded outside any fallback.
- Environment loading and authentication bootstrapping are not modelled (`get_env_var`, `get_auth_data`, `create_session.py`, `setup.py`). The credentials are an `Option` argument.
- The alias table `GIFT_NAME_MAP` and the gifts JSON are arguments. Their literal contents are not part of the model.
- Time formats are not modelled:
  - the `strptime`/`strftime` of `listed_at` is replaced by an integer timestamp;
  - an unparseable one is a separate case;
  - the `%H:%M` label text is the minute of the day.
  The string sorts in `bin/bot.py` and `bin/test.py` are modelled as sorts by time. This assumes every timestamp uses the same fixed-width format.
- `Card.Round2`: exact half-away-from-zero rounding of a real. It does not model binary float rounding of Python's `round`. Only the thresholds and error bounds of the result are stated.
- `Card.PercentBadge`: the badge keeps the rounded number, not its `:+.2f` text.
- `Card.CardPrices`: keeps the two prices, not their `str` formatting.
- The card's timestamp text (`strftime("%d %b %Y • %H:%M UTC")`) and the watermark position are not modelled.
- `Card.ParseInt16`: models `int(s, 16)` with surrounding whitespace, an optional sign and hex digits. It does not model the underscores and the `0x` prefix that Python also accepts. Neither can occur in the palette.
- `Card.GiftImage`: an asset is known by its file name. The `os.path.join` with the asset directory is not modelled.
- `Utils.FormatPriceData`, `Utils.CalculateAveragePrice` and `Utils.GetPriceRange` require every record to hold its keys. A missing key raises KeyError in the source. The `float()` of a price is the identity on the model's reals.
- `TestMain.RunScript` takes the raw gift name as an argument. The source hard-codes "frog".
- `Bot.GenerateAndSendChart` reports why a request failed. The source only returns False and sends an apology.
