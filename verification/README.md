# ScraperMapper Bayut extractor and gallery helpers, in Dafny

ScraperMapper is a small Streamlit app. It takes a saved Bayut property
listing page and does two things with it:

- It fills one spreadsheet row of 33 named columns. The row is built from the
  page's DOM, its JSON-LD blocks and two raw-text regular-expression scans
  (`extract_bayut_fields` with its helpers `_first`, `_jsonlds` and
  `_get_residence`).
- It collects the listing's gallery pictures from the raw page (`strip_query`,
  `find_all_image_urls`, `filter_property_images` and
  `extract_gallery_images`).

This project models both parts and proves what they promise.

## The model

The model is split into these modules:

- `Outcomes` (`outcomes.dfy`): `Option`, and `Result` over the Python exceptions
  the extractor can raise (`AttributeError`, `KeyError`, `IndexError`,
  `TypeError`, `ValueError`). It also defines `LastSome`, the value a variable
  ends with after a loop that overwrites it element by element.
- `PyStr` (`pystr.dfy`): the Python string operations the code uses.
  - `lower`, `upper`, `title` and `replace`.
  - `rstrip(c)`, `strip()` and `split()`.
  - `in` on strings.
  - `re.IGNORECASE` letter matching.
- `JsonValues` (`json.dfy`): the values `json.loads` returns, and Python's
  `bool(x)`, `str(x)`, `a or b`, `x.get(k, d)` and `x[0]` on them.
- `JsonLd` (`jsonld.dfy`): `_first`, `_jsonlds` (a loop method proved against
  `Flatten`) and `_get_residence`.
- `RawScan` (`rawscan.dfy`): `re.search(r'"KEY"\s*:\s*"([^"]+)"', html, re.I)`,
  as a leftmost search for a match.
- `BayutRow` (`row.dfy`): the row dict, as a record with one field per key.
  - `Schema` gives the keys in insertion order and `Key` gives each key's text.
  - `Columns` gives the dict's items.
  - `InitialRow` is the dict literal.
- `Bayut` (`bayut.dfy`): the page as the extractor sees it and every step of
  `extract_bayut_fields`.
  - Each step is a function.
  - The whole extraction is the function `BayutFields`.
  - The source's loops (spans, prices, sellers, regulatory items, the geo
    scan) are methods that update the row in place. Each is proved equal to
    its function.
  - The method `ExtractBayutFields` runs them in the source's order and is
    proved equal to `BayutFields`.
- `BayutProps` (`bayut_props.dfy`): handover date splitting, `_grab_feature`,
  regulatory label routing, and "last item wins".
- `BayutPipeline` (`pipeline.dfy`): the finished row, one column group at a
  time, and when the extraction raises.
- `StrOrder` (`ordering.dfy`): Python's ordering of strings, and
  `sorted(set(xs))`.
- `Gallery` (`gallery.dfy`): the image URL helpers.

How the page is represented:

- HTML parsing is not modelled. A `Page` holds what BeautifulSoup's lookups
  return: the texts of the `h1`, the description, the header and the
  furnishing element; every `aria-label`led span; the items of the regulatory
  list; the raw text.
- `json.loads` is not modelled either. Each JSON-LD block is its parse
  outcome, with `None` standing for a block whose parse raised.
- The image regular expression's matches are an input sequence, in the order
  `findall` returns them.

A Python exception is an `Err` result.

- `.get` on an entry that is not a dict raises `AttributeError`. This can
  happen in `_get_residence`, the price loop, the seller loop and the residence
  fallbacks.
- `(offers or [{}])[0]` raises `KeyError` when `offers` is a non-empty dict
  and `TypeError` when it is a number or `True`. It never raises
  `IndexError`: the indexed value is true, so a list or string there is not
  empty.
- `q, y = val.split()` on a handover date shaped "Qd yyyy" raises `ValueError`
  when the date has more than two words.

Behaviour of the code worth noting:

- The row has 33 keys (app.py:40-74).
- `_get_residence` picks the first entry whose `@type` is exactly
  `"Residence"`, with no fallback (app.py:26-30).
- `Country*` and `Purchase Price*` take whatever JSON value the page holds,
  which need not be a string (app.py:95, 147).
- A quarter-shaped handover date with more than two words makes the
  extraction raise `ValueError` (app.py:134-135).
- When several JSON-LD entries carry a price, the price loop keeps the last
  one: it does not stop at a match (app.py:142-147).

## Model

| member | source | states |
|---|---|---|
| Outcomes.LastSome | app.py:142-147 | the value a loop that overwrites a variable with each element's answer leaves: `None` exactly when no element gives an answer |
| Outcomes.LastSomeAt | app.py:142-147 | with no `break`, the last element that gives an answer decides the value |
| Outcomes.LastSomeSkip | app.py:186-187 | an element that gives no answer can be removed without changing the outcome |
| Outcomes.LastSomeWitness | app.py:142-147 | the final value is the answer of some element of the list |
| PyStr.Lower | app.py:121 | `str.lower`: same length, each character mapped by its lower-case form (ASCII) |
| PyStr.Upper | app.py:133 | `str.upper`: same length, each character mapped by its upper-case form (ASCII) |
| PyStr.Title | app.py:152 | `str.title`: same length; a letter is upper-cased after a non-letter and lower-cased after a letter |
| PyStr.ReplaceChar | app.py:166 | `str.replace("-", " ")`: same length, every `-` replaced and nothing else changed |
| PyStr.RStripChar | app.py:152 | `rstrip("s")`: a prefix of the input that does not end in `s`, with only `s` characters removed |
| PyStr.Strip | app.py:11 | `strip()`: the result neither starts nor ends with a blank, and is empty exactly when the input is all blanks |
| PyStr.StripTrims | app.py:11 | `strip()` returns an infix of the input with only blanks before and after it |
| PyStr.Words | app.py:135 | `split()`: every element is a non-empty word without blanks |
| PyStr.WordsNone | app.py:135 | `split()` returns no words exactly when the input is all blanks |
| PyStr.WordsSplitInput | app.py:135 | `split()` returns the maximal non-blank runs in order: the input is its words joined by blank gaps, every gap between two words non-empty |
| PyStr.WordsLast | app.py:178-179 | on a text that is not all blanks, `split()[-1]` exists and is the last word: a non-blank run that starts the text or follows a blank, followed only by blanks |
| PyStr.LowerIdempotent | app.py:270 | lower-casing twice is lower-casing once |
| PyStr.LowerOfTitle | app.py:166-169 | lower-casing a title-cased status equals lower-casing the raw status |
| PyStr.ContainsNonBlank | app.py:178-179 | a text containing "Furnish" has a non-blank character |
| JsonValues.ToStr | app.py:99-100 | `str(x)`: a string gives itself, `None` gives "None", a boolean "True" or "False", a number its text; lists and dicts give non-empty text |
| JsonValues.Or | app.py:144 | `a or b` is `a` when `a` is true and `b` otherwise |
| JsonValues.Lookup | app.py:95 | `d.get(k, default)` gives the key's value when the key is present and the default when it is absent |
| JsonValues.Get | app.py:146-147 | `x.get(k, d)` succeeds exactly on a dict, giving the key's value or the default, and otherwise raises AttributeError |
| JsonValues.Index0 | app.py:158 | `x[0]` gives a non-empty list's first element or a non-empty string's first character; a dict raises KeyError; `None`, a boolean or a number raises TypeError; IndexError exactly on an empty list or string |
| JsonLd.First | app.py:9-13 | what `_first` returns neither starts nor ends with a blank |
| JsonLd.FirstEmpty | app.py:9-13 | `_first` is "" exactly when no argument is a non-blank string |
| JsonLd.FirstPicksEarliest | app.py:9-13 | `_first` returns the stripped earliest non-blank string, whatever follows it |
| JsonLd.JsonLds | app.py:15-24 | the loop collects exactly the entries of `Flatten` (parsed blocks in order, lists expanded) |
| JsonLd.FlattenAppend | app.py:15-24 | the entries of two runs of blocks are those of the first followed by those of the second |
| JsonLd.BlockEntriesInPlace | app.py:15-24 | each block's entries appear in place, between those of the blocks before and after it |
| JsonLd.FailedBlockSkipped | app.py:18-23 | a block whose parse raised contributes nothing and does not disturb the others |
| JsonLd.GetResidence | app.py:26-30 | `_get_residence` only raises AttributeError, and what it returns is typed exactly "Residence" |
| JsonLd.GetResidenceFirst | app.py:26-30 | the first entry that is not a dict or is a residence decides the outcome: it raises, or is returned, or there is none |
| RawScan.NonQuoteRun | app.py:150 | `[^"]+` takes the whole run of non-quote characters |
| RawScan.QuotedAt | app.py:150 | a match at a position yields a non-empty group without quotes |
| RawScan.SearchFrom | app.py:150 | a group found from a position on is non-empty and has no quotes |
| RawScan.SearchQuoted | app.py:164 | `m.group(1)` is non-empty and has no quotes |
| RawScan.SearchFindsLeftmost | app.py:150-152 | the search returns the group of the leftmost match |
| RawScan.SearchFindsNothing | app.py:164-166 | the search finds nothing exactly when no position starts a match |
| BayutRow.Position | app.py:39-75 | every column has a position in the dict's key order |
| BayutRow.SchemaIsListing | app.py:39-75 | the key order lists 33 columns, each exactly once |
| BayutRow.Cell | app.py:39-75 | every column other than `Country*` and `Purchase Price*` holds a string |
| BayutRow.Columns | app.py:39-75 | every row has the same 33 keys in the same order; no step adds or removes one |
| BayutRow.InitialRow | app.py:39-75 | the dict literal: every column "" except `Country*`, which is "UAE" |
| BayutRow.ColumnOf | app.py:39-75 | looking up a key finds only the column whose key it is |
| BayutRow.ColumnOfKey | app.py:39-75 | looking up a column's own key finds that column |
| BayutRow.KeyInjective | app.py:39-75 | no two columns share a key |
| Bayut.StrOr | app.py:99-101 | `str(v) or old` is `str(v)` unless that is empty, and is empty only when both are |
| Bayut.LdFallbacks | app.py:93-101 | without a residence nothing changes; with one, AttributeError is raised exactly when `numberOfRooms` or `floorSize` holds a true non-dict; otherwise the country becomes `addressCountry` ("UAE" for an address dict without one, unchanged without an address dict), bedrooms and area become `str` of the dicts' "value" and bathrooms `str` of `numberOfBathroomsTotal`, each only when not empty; no other column changes |
| Bayut.GrabFeature | app.py:104-109 | `_grab_feature` is "" when no span's label matches |
| Bayut.QuarterWords | app.py:134-135 | a date matching `Q\d\s+\d{4}` splits into "Qd" followed by a word starting with four digits |
| Bayut.YearOf | app.py:134-139 | a handover year that is written always starts with four digits |
| Bayut.HandoverStep | app.py:132-139 | raises ValueError exactly for a quarter-shaped date of more than two words; otherwise it sets the quarter and year (both words, only the year, or nothing) |
| Bayut.SpanStep | app.py:120-139 | one span writes its text into the column its stripped, lower-cased label routes it to, and only there |
| Bayut.ApplySpecs | app.py:120-139 | the spec loop raises exactly when some span raises; otherwise each of its five columns holds what the last span routed to it wrote |
| Bayut.OfferPrice | app.py:142-147 | an entry that is not a dict raises AttributeError, the only exception; an entry with no first offer (not an ItemPage, `mainEntity` not a dict, `offers` not a non-empty list) yields no price; otherwise it yields `priceSpecification.price` of the first offer (defaults `{}` and ""), raising exactly when the offer or its specification is not a dict |
| Bayut.ApplyPrices | app.py:142-147 | raises exactly when some entry raises; otherwise the price is that of the last ItemPage offer, or unchanged |
| Bayut.OfferSeller | app.py:155-161 | an entry that is not a dict raises; a dict that is not an ItemPage names no seller; an ItemPage succeeds exactly when both `.get` chains (`org.get("name", "")` and `offeredBy.get("name", "")`) do, raises the organisation chain's exception otherwise, and names `_first` of the two names; the only exceptions are AttributeError, KeyError and TypeError, never IndexError |
| BayutProps.SellerPrefersOrganisation | app.py:157-161 | an ItemPage names its parent organisation's name when that is a non-blank string, else the offerer's name when that is one, else "" |
| Bayut.ApplySellers | app.py:155-161 | succeeds exactly when no entry raises, and otherwise fails with the exception of the first entry that raises; on success the seller is the last ItemPage's |
| Bayut.InstantBuyRule | app.py:168-172 | only Instant Buy changes; it is "" exactly when the lower-cased status is "under construction", and otherwise "Yes" |
| Bayut.FurnishingText | app.py:176-180 | a text containing "Furnish" becomes its last word (a non-blank run followed only by blanks, at the start or after a blank); any other text is kept |
| Bayut.RegColumn | app.py:192-205 | a label is routed only to one of the seven regulatory columns |
| Bayut.ApplyRegulatory | app.py:183-205 | the regulatory loop writes the seven regulatory columns and no other |
| Bayut.FirstGeo | app.py:212-217 | the fallback finds no geo exactly when no entry is a dict with a dict `geo` |
| Bayut.FirstGeoAt | app.py:213-217 | the fallback takes the first entry with a geo (`break`) |
| Bayut.RunSpecs | app.py:120-139 | the in-place spec loop, with its early exit on ValueError, equals `ApplySpecs` |
| Bayut.RunPrices | app.py:142-147 | the in-place price loop equals `ApplyPrices` |
| Bayut.RunSellers | app.py:155-161 | the in-place seller loop equals `ApplySellers` |
| Bayut.RunRegulatory | app.py:183-205 | the in-place regulatory loop, skipping incomplete items, equals `ApplyRegulatory` |
| Bayut.RunLatLon | app.py:207-217 | the coordinates step with its scan-and-break loop equals `LatLonStep` |
| Bayut.ExtractBayutFields | app.py:34-223 | `extract_bayut_fields`, run step by step, returns `BayutFields(page)`: the row, or the exception raised |
| BayutProps.WordsOfWord | app.py:135 | `split()` of a single word is that word |
| BayutProps.WordsOfPair | app.py:135 | `split()` of two words joined by a blank gives the two words |
| BayutProps.WordsOfLeadingWord | app.py:135 | a leading run of non-blanks ended by a blank is the first element of `split()` |
| BayutProps.WordsOfBlankWord | app.py:135 | `split()` of a word behind one blank is that word |
| BayutProps.ResidenceDefaults | app.py:94-99 | an address dict without `addressCountry` gives "UAE"; `numberOfRooms` `{"value": 3}` gives the bedrooms "3"; nothing else changes |
| BayutProps.BareRoomCountRaises | app.py:99 | a `numberOfRooms` that is a bare text raises AttributeError |
| BayutProps.ItemPagePrice | app.py:142-147 | an ItemPage whose first offer has `priceSpecification.price` "1500000" yields that price |
| BayutProps.FullyFurnished | app.py:175-180 | "Fully Furnished" becomes "Furnished" |
| BayutProps.QuarterDateSplits | app.py:132-137 | "Qd yyyy" sets the quarter to "Qd" and the year to "yyyy" |
| BayutProps.YearDateKept | app.py:138-139 | a date starting with four digits sets the year to the whole date and leaves the quarter |
| BayutProps.SpecsYearDigits | app.py:132-139 | after the spec loop, the handover year is unchanged or starts with four digits |
| BayutProps.GrabFeatureFirst | app.py:104-109 | `_grab_feature` returns the text of the first span whose label matches |
| BayutProps.RegCodesExact | app.py:198-205 | DED, RERA, ARRA and BRN are chosen exactly when the lower-cased label equals the code |
| BayutProps.RegLongLabels | app.py:192-197 | the three long labels route by substring, tested in the order permit number, zone name, registered agency |
| BayutProps.NotContainsLonger | app.py:192-197 | a needle longer than the label never occurs in it |
| BayutProps.RegStepValue | app.py:186-205 | one item writes its value into the column it is routed to, and into no other |
| BayutProps.RegulatoryLastWins | app.py:183-205 | each regulatory column holds the value of the last complete item routed to it, or keeps its value |
| BayutProps.IncompleteItemSkipped | app.py:186-187 | an item without its label or value element changes nothing |
| BayutPipeline.PrefillFacts | app.py:39-101 | after the header fields and the fallbacks, only the header, country and feature columns can differ from the dict literal |
| BayutPipeline.FallbackColumns | app.py:93-101 | after the fallbacks, country, bedrooms, bathrooms and area are the residence's (or "UAE" and "" without one) |
| BayutPipeline.FeatureOr | app.py:115-117 | a non-empty feature overrides; an empty one keeps the fallback |
| BayutPipeline.FeatureColumns | app.py:111-117 | beds, baths and area override bedrooms, bathrooms and area when non-empty, and change nothing else |
| BayutPipeline.ScrapeFacts | app.py:39-161 | the row at the end of the seller loop, column by column |
| BayutPipeline.StatusReading | app.py:163-169 | the status reads "under construction" exactly when the raw `completion_status` does, with dashes as blanks, in any case |
| BayutPipeline.StatusFacts | app.py:163-180 | the completion status comes from the raw search, Instant Buy follows it, and the furnishing text is written when found |
| BayutPipeline.LocationFacts | app.py:207-221 | the location steps write the coordinates, and the link only when both are set |
| BayutPipeline.LatLonOnlyCoords | app.py:207-217 | the coordinates step writes only the two coordinates, from the coordinates it starts with |
| BayutPipeline.FinishFacts | app.py:163-221 | the steps after the seller loop write their columns, and nothing else |
| BayutPipeline.Unpack | app.py:34-223 | a returned row is `Finish` applied to the row the seller loop left |
| BayutPipeline.RowHeaderColumns | app.py:77-91 | name, description and location are the found elements' texts, or "" |
| BayutPipeline.RowSpecColumns | app.py:119-139 | reference, floors, year built and handover date hold the last routed span's value, or "" |
| BayutPipeline.RowOfferColumns | app.py:141-161 | price and seller come from the last ItemPage entry that gives them, or are "" |
| BayutPipeline.RowFeatureColumns | app.py:93-117 | in the finished row, the residence's `numberOfRooms` and `floorSize` are not true non-dicts; bedrooms, bathrooms and area are the page's features when not empty and otherwise the residence's texts ("" without a residence); the country is the one the residence's address names, "UAE" by default |
| BayutPipeline.RowStatusColumns | app.py:149-180 | property type and completion status come from the raw searches; Instant Buy is "" exactly for a property under construction and "Yes" otherwise; furnishing is the found text |
| BayutPipeline.RowRegulatoryColumn | app.py:182-205 | each regulatory column holds the last complete item routed to it, or "" |
| BayutPipeline.RowMapLink | app.py:219-221 | the link is `https://www.google.com/maps?q=<lat>,<lon>` when both coordinates are set, and "" otherwise |
| BayutPipeline.RowUnfilledColumns | app.py:52-59 | plot area, the three down-payment columns and the service charge are always "" |
| BayutPipeline.NonObjectEntryRaises | app.py:142-143 | a JSON-LD entry that is not an object always makes the extraction raise |
| BayutPipeline.ScrapeRaises | app.py:132-135 | a raising span stops the steps up to the seller loop, with ValueError once the prefill succeeds |
| BayutPipeline.BadHandoverRaises | app.py:134-135 | a quarter-shaped handover date of more than two words makes the extraction raise, with ValueError unless an earlier JSON-LD step raised |
| StrOrder.LessTotal | app.py:298 | any two different strings are ordered one way or the other |
| StrOrder.LessAsymmetric | app.py:298 | string order is asymmetric |
| StrOrder.StrictlySortedNoDup | app.py:298 | a strictly increasing list has no repeated element |
| StrOrder.SortedSet | app.py:298 | `sorted(set(xs))` is strictly increasing and holds exactly the elements of `xs` |
| StrOrder.StrictlySortedUnique | app.py:298 | two strictly increasing lists with the same elements are equal |
| StrOrder.SortedSetOfSorted | app.py:298 | sorting a strictly increasing list gives it back |
| Gallery.StripQuery | app.py:269-271 | `strip_query` returns a URL with no query and no fragment: the input's scheme, lower-cased, then the rest of the input up to (not including) its first `?` or `#`, or to the end |
| Gallery.StripQueryKeepsClean | app.py:269-271 | a URL with a lower-case scheme and no query or fragment comes back unchanged: scheme, host and path are kept |
| Gallery.StripQueryDropsOnlyQuery | app.py:269-271 | for such a URL `u`, `strip_query(u + "?" + q)` and `strip_query(u + "#" + q)` are `u` |
| Gallery.StripQueryIdempotent | app.py:269-271 | `strip_query` is idempotent |
| Gallery.QueryIgnored | app.py:269-271 | URLs that differ only in their query or fragment normalise to the same value |
| Gallery.Normalize | app.py:277-278 | each match is replaced by its `strip_query`, in order |
| Gallery.Dedup | app.py:276-281 | the `seen` filter leaves no duplicates and keeps every value |
| Gallery.FindAllImageUrls | app.py:273-282 | the loop with its `seen` set returns the normalised matches with repeats dropped after their first occurrence |
| Gallery.FindAllFacts | app.py:273-282 | the result has no duplicates and no queries, and holds exactly the normalised matches |
| Gallery.DedupFirstSeenOrder | app.py:276-281 | the result keeps first-occurrence order |
| Gallery.DedupOfNoDup | app.py:276-281 | a list without repeats is left unchanged |
| Gallery.KeepGallery | app.py:284-293 | kept URLs are exactly those with "bayut" in the lower-cased host that end in `-800x600.webp`, ignoring case, and they keep their order (a subsequence of the input) |
| Gallery.FilterPropertyImages | app.py:284-293 | the filtering loop returns `KeepGallery` of its input |
| Gallery.KeepGalleryOfKept | app.py:284-293 | filtering a list whose every URL passes gives it back |
| Gallery.ExtractGalleryImages | app.py:295-298 | the gallery is strictly increasing and holds exactly the normalised matches that pass the filter |
| Gallery.GalleryIdempotent | app.py:295-298 | extracting the gallery from a gallery gives it back |

## Left out

- The Streamlit UI, the file upload, the Excel export, PixelBin uploads and
  downloads, `build_transform_url`, the ZIP packaging and `init_event_loop`.
  These are I/O, network calls and foreign libraries.
- BeautifulSoup parsing, `json.loads` and the regular-expression engine for
  image URLs. Their results are inputs to the model, and so is
  `get_text(" ", strip=True)`.
- `PyStr.Lower`, `PyStr.Upper`, `PyStr.Title`: these are ASCII only. Python
  also maps other Unicode letters.
- `PyStr.IsDigit`: `\d` is modelled as ASCII digits only. Python's `\d` on
  `str` also matches other Unicode digits.
- `JsonValues.ToStr`: the text Python prints for a list or a dict (its repr)
  is not reproduced. Only the fact that it is non-empty is kept.
- `JsonValues.Json`: a number carries the text `str()` gives for it. Its
  numeric value is not modelled.
- `Gallery.StripQuery`: this models `urlsplit`/`urlunsplit` as cutting at the
  first `?` or `#` and lower-casing the scheme. Not modelled: `urlsplit`
  removing tabs, newlines and leading blanks or control characters, which a
  URL the image pattern (app.py:274) matches cannot hold; `urlunsplit`
  writing `//` differently when the netloc is empty, which a match such as
  `http:////a.jpg` reaches; and netloc validation. In particular `urlsplit`
  raises `ValueError` on a netloc with an unbalanced `[` or `]` (the match
  `http://[a.jpg`), so `find_all_image_urls` and `extract_gallery_images`
  raise on such a page, while `Gallery.StripQuery`,
  `Gallery.FindAllImageUrls` and `Gallery.ExtractGalleryImages` always
  return a list.
- `Gallery.Netloc`: the host is the text between `//` and the next `/`, `?`
  or `#`. `urlsplit`'s validation errors are not modelled.
- `Bayut.Page.description`: the `select_one(...) or find(...)` fallback
  between two elements is taken as already resolved.
