# Company-listing scraper: extraction, deduplication, cookies and URLs

This project is a Dafny model of the three pieces of logic inside a small
scraper for a startup directory:

- **StreamScraper** (`scraper.dfy`, with `pystrings.dfy`): the class
  `StreamScraperService`. `parse_page` turns each company card of the
  rendered page into a record (`name`, `location`, `description`, `link`).
  Each text field is stripped, and a missing or blank field becomes `"N/A"`.
  The method keeps only cards whose `(name, link)` key is not yet in the
  mutable `seen_companies` set, and adds each new key to the set.
  `scroll_and_parse` clears the set and parses the first view. It then
  scrolls, reads the page height and parses again, and stops at the first
  height that equals the one before it. The model is a class `Scraper` with
  a `seenCompanies` set field and two methods with loops. Each method is
  proved against a reference function: `FirstNew` for one parse, `Pass` for
  a whole scroll pass. The browser is an oracle: the parser's view of each
  snapshot is a list of `Card`s, and the heights are a list of integers.
- **CookieLoader** (`cookies.dfy`): `convert_cookie` and
  `load_and_convert_cookies` from `script.py`. These are pure functions over
  a `Json` datatype for decoded JSON. Python exceptions become
  `Result.Failure` values.
- **Config** (`config.dfy`): the three database URL builders of `Settings`
  in `config.py`.
  A reference parser `ParseAuthority` is their inverse when no field
  contains its terminating separator.

`wrappers.dfy` holds `Option` and `Result`.

The model follows the code as written:

- A card with no name element is kept, with the name `"N/A"`.
- The link is the `href` exactly as written.
- For heights 100, 200, 200 the loop parses three times: once for the
  initial view and once after each of its two scrolls. `ScrollAndParse`
  ensures `parses == scrolls + 1`, and `StopsAtFirstRepeat` works the
  example.
- Of the exceptions the conversion raises, only `KeyError` becomes `[]`.
  A top level that is not a list raises `ValueError`, and nothing catches
  it. A non-object element,
  an unhashable `sameSite`, and an `expirationDate` that `float()` rejects
  also raise exceptions that nothing catches.

## Model

| member | source | states |
|---|---|---|
| PyStrings.Strip | services/stream_scraper_service.py:28-30 | `str.strip()`: the result is the infix left after cutting the whitespace at both ends; it is empty iff the text is all whitespace; otherwise its first and last characters are not whitespace |
| StreamScraper.FieldText | services/stream_scraper_service.py:28-30 | a normalised field is never empty; it is the stripped text when the element exists and is not blank, and `"N/A"` when the element is missing or blank |
| StreamScraper.Extract | services/stream_scraper_service.py:24-31 | name, location and description are each non-empty and are each `"N/A"` or the stripped element text; an element whose text is not blank gives exactly its stripped text; a card without a name span gets name `"N/A"`; a missing block or span gives description `"N/A"`; the link is `href` verbatim, or `"N/A"` when absent |
| StreamScraper.Scraper.constructor | services/stream_scraper_service.py:9-11 | a new scraper has the directory URL and an empty seen set |
| StreamScraper.Scraper.ParsePage | services/stream_scraper_service.py:13-46 | the result is `FirstNew` of the old seen set over the card records; the new seen set is the old one united with the keys of all cards; an empty snapshot returns `[]` and leaves the set unchanged |
| StreamScraper.Scraper.ScrollAndParse | services/stream_scraper_service.py:48-80 | the pass does exactly `FirstStable(heights)` scrolls and one more parse than scrolls; `allCompanies` is the in-order concatenation of every parse's result, starting from an empty seen set; the result does not depend on the seen set on entry; the final seen set is the keys of every parsed view |
| StreamScraper.FirstStable | services/stream_scraper_service.py:60-78 | the loop stops at the first `k >= 1` with `heights[k] == heights[k-1]`; no earlier scroll repeats its height |
| StreamScraper.StopsAtFirstRepeat | services/stream_scraper_service.py:60-78 | heights 100, 200, 200 stop at scroll 2 |
| StreamScraper.IsFirstNewIff | services/stream_scraper_service.py:34-36 | the scraper's set test (key not in seen plus earlier keys) holds iff the card is the first of its key and its key was not seen on entry |
| StreamScraper.FirstNewKeys | services/stream_scraper_service.py:34-36 | the keys one parse emits are exactly the snapshot's keys minus the keys seen on entry |
| StreamScraper.FirstNewFresh | services/stream_scraper_service.py:34-36 | no returned record has a key that was in the seen set on entry |
| StreamScraper.FirstNewDistinct | services/stream_scraper_service.py:34-43 | no two returned records share a `(name, link)` key |
| StreamScraper.DistinctKeysCount | services/stream_scraper_service.py:34-43 | records with pairwise distinct keys have exactly as many keys as records |
| StreamScraper.FirstNewCount | services/stream_scraper_service.py:34-43 | one parse returns exactly as many records as there are snapshot keys not seen before |
| StreamScraper.FirstNewMembers | services/stream_scraper_service.py:23-43 | a record is returned iff it is the extraction of a card that is the first of its key and whose key is new |
| StreamScraper.NamelessCardKept | services/stream_scraper_service.py:24-43 | a card with no name span, whose key `("N/A", link)` was neither seen before nor held by an earlier card, is returned, with name `"N/A"` |
| StreamScraper.FirstNewAgain | services/stream_scraper_service.py:34-36 | parsing the same snapshot again, with its keys recorded, returns nothing |
| StreamScraper.FirstNewAppend | services/stream_scraper_service.py:34-36 | parsing `a` and then `b` with the seen keys carried over returns the same records as parsing `a + b` |
| StreamScraper.PassIsFirstNew | services/stream_scraper_service.py:51-72 | a whole scroll pass returns the same records as one deduplication over all its views concatenated |
| StreamScraper.PassKeysDistinct | services/stream_scraper_service.py:51-72 | the records a pass accumulates have pairwise distinct keys |
| StreamScraper.PassKeys | services/stream_scraper_service.py:51-80 | the keys a pass emits are exactly the keys of all its views |
| CookieLoader.Truncate | script.py:23 | `int()` of a real truncates toward zero: below or equal for non-negative values, above or equal for negative ones, within 1 |
| CookieLoader.SameSite | script.py:7-12 | the result is `"None"`, `"Lax"` or `"Strict"`; `"Lax"` iff the value is exactly `"lax"`, `"Strict"` iff exactly `"strict"`; a list or object value raises `TypeError`; anything else, absence included, gives `"None"` |
| CookieLoader.SameSiteCaseSensitive | script.py:7-12 | `"Lax"` and an absent value both map to `"None"` |
| CookieLoader.ExpiryOf | script.py:23 | an integer is kept; a boolean gives 1 or 0; a float, and a string that parses to a finite number, are truncated toward zero (`Truncate`); a string that parses to infinity raises `OverflowError`, to NaN or not at all `ValueError`; null, a list or an object raise `TypeError`; the only failures are `TypeError`, `ValueError` and `OverflowError` |
| CookieLoader.ConvertCookie | script.py:6-24 | a non-object raises `TypeError`; the first missing key of name, value, domain raises `KeyError` with that key; given the required keys, success depends only on sameSite and expiry conversion, a failure is exactly the sameSite error or else the expiry error, and no `KeyError` is raised; on success the keys are exactly the seven, plus `expires` iff `expirationDate` is present; name, value and domain are copied; path, secure and httpOnly are copied or default to `"/"`, `false`, `false`; sameSite is the table value; `expires` is the truncated expiry |
| CookieLoader.ExportedCookieExample | script.py:6-24 | the exported cookie with `no_restriction` and 1700000000.9 gives sameSite `"None"`, expires 1700000000, path `"/"` and secure `false` |
| CookieLoader.ConvertAll | script.py:39 | on success the list has the input's length and element `i` is the conversion of input `i`; on failure the error is that of the first element that fails |
| CookieLoader.LoadCookies | script.py:35-50 | a non-list raises `ValueError`; a `KeyError` never escapes; any other exception of the first failing element escapes unchanged; `[]` for a non-empty list arises only from a `KeyError`; a success is `[]` or the element-wise conversion; when every element converts, the result has the input's length |
| CookieLoader.MissingKeyEmptiesAll | script.py:39-50 | when the first failing element is an object that lacks a required key, the whole result is `[]` |
| CookieLoader.EmptyOnlyFromMissingKey | script.py:39-50 | a non-empty list loads as `[]` only when its first failing element is an object missing `name`, `value` or `domain` |
| CookieLoader.LoadAndConvertCookies | script.py:28-50 | a missing file or malformed JSON gives `[]`; otherwise the result is that of the decoded value |
| Config.Authority | config.py:16-24 | the text after the scheme is as long as the five fields plus four separators |
| Config.DbUrl | config.py:15-17 | `postgresql+asyncpg://` followed by the authority text; length is scheme plus fields plus 4 |
| Config.DbUri | config.py:19-20 | `postgresql://` followed by the authority text; length is scheme plus fields plus 4 |
| Config.AlembicUrl | config.py:22-24 | `postgresql+psycopg://` followed by the authority text; length is scheme plus fields plus 4 |
| Config.SameAfterScheme | config.py:15-24 | the three URLs are identical after their schemes |
| Config.AuthorityRoundTrip | config.py:16-24 | when no field contains its own terminating separator, parsing the authority text gives back the settings |
| Config.UrlsRoundTrip | config.py:15-24 | each URL, parsed with its own scheme, gives back the settings under the same condition |
| Config.UnescapedFieldsCollide | config.py:16-17 | with no escaping, two different settings (user `a:b` with password `c`, and user `a` with password `b:c`) give the same URL |

## Left out

- HTML parsing and class-pattern matching by BeautifulSoup
  (services/stream_scraper_service.py:15, 19, 24-26) is a foreign library. A
  snapshot is the list of `Card`s it would find: the text of each card's name
  and location span, its description block, and its `href`.
- The `logging` calls, including the warning for a snapshot with no cards,
  have no effect on results and are not modelled.
- Browser navigation, `page.content()`, `page.evaluate`, `asyncio.sleep` and
  the retry-forever loop of `parse_ycombinator_site`
  (services/stream_scraper_service.py:82-105) are browser I/O and timing. Heights
  and snapshots are oracle inputs.
- Scraper.ScrollAndParse: requires that the heights repeat within the supplied
  observations. The program itself would keep scrolling forever on a page
  whose height never settles, and a finite oracle cannot show that.
- ExpiryOf: treats numbers as exact. Rounding to IEEE doubles, overflow of
  very large integers, and the non-standard JSON literals `Infinity` and
  `NaN` are not modelled. Parsing a string with `float()` is the
  `parseFloat` parameter.
- Opening the file, decoding JSON and the `print` messages of
  `load_and_convert_cookies` (script.py:31-32, 42-47) are I/O. Their outcome
  is the `FileRead` value. Other I/O errors are not modelled.
- Loading `Settings` from `.env` (config.py:4-13, 26) is I/O. The five fields
  are given.
- `db/dao/company_dao.py`, `services/company_service.py`, `db/models.py` and
  `db/database.py` pass straight through to the ORM and the database, so
  there is no logic of their own to model. `combinator_sites.py` is a
  dashboard, and `main.py` is an orchestration loop. None of these is part of
  this model.
