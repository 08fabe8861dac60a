# ZiviConnect Pflichtenheft tools, modelled in Dafny

The repository has two parts, and this project models the core of each.

- **The record transformer.** `pflichtenheft_parser.py` turns one assignment specification ("Pflichtenheft") record, as decoded from JSON, into one row of a fourteen-column CSV file.
  - The row is quoted cell by cell and joined with commas under a fixed header.
  - When a vCard directory is given, it also writes vCard 4.0 files (RFC 6350). The contact person's card is written only when there is a contact name, that is when `contact_name` is truthy (`pflichtenheft_parser.py:121`). The company's card is written whenever a directory is given (`pflichtenheft_parser.py:134`).
- **The API client.** `src/zdp_api.py` is a small client for the ZiviConnect search API. `src/main.py` is its command line, which reads a browser cookie export (the Netscape `cookies.txt` layout) into the client's cookie jar.

The Dafny modules follow those files:

| file | module | models |
|---|---|---|
| `wrappers.dfy` | `Wrappers` | `Option` and `Result` |
| `pytext.dfy` | `PyText` | The Python string operations the core uses: `sep.join`, `s.split(d)`, `s.strip()`, `s.capitalize()` (ASCII) and `os.path.join`. |
| `pydata.dfy` | `PyData` | Decoded JSON values (`None` is `JNull`), truthiness, `str()`, `dict.get`, and the dict comprehension that drops entries. |
| `pflichtenheft_parser.dfy` | `PflichtenheftParser` | `HEADER`, `extract_sub_csv`, `extract_kurs_codes`, `convert_boolean_value`, `construct_name`, `create_vcard`, the path choice of `save_vcard`, and `json_to_csv` with its inner `get`. |
| `zdp_api.dfy` | `ZdpApi` | `ZiviConnectClient`: its fields, `_get_headers`, and `search`, which validates, builds the payload, posts and checks the status. |
| `cli_main.dfy` | `CliMain` | `parse_cookies_file` |

The pure parts are functions with lemmas. The parts that change state are methods, each proved against a specification function:
- the loop of `get` (`Get`);
- the file writes of `json_to_csv` (`VcfStore`, `SaveContactCard`, `SaveCompanyCard`, `SaveCards`, `JsonToCsv`);
- the client object (`ZiviConnectClient`), whose `posted` log stands for the HTTP session;
- the cookie-file loop (`ParseCookiesFile`).

The vCard directory is a map from path to text. Writing a file sets one entry of that map.

## Model

| member | source | states |
|---|---|---|
| PyText.JoinOpening | pflichtenheft_parser.py:68 | Joining at least three parts starts with the first two parts, each followed by the separator. |
| PyText.JoinClosing | pflichtenheft_parser.py:68 | Joining at least two parts ends with the separator and the last part. |
| PyText.Join | pflichtenheft_parser.py:68 | `sep.join` of no parts is empty; otherwise the result starts with the first part. |
| PyText.Split | src/main.py:40 | `str.split(d)` gives at least one field, and no field contains the separator. |
| PyText.SplitJoin | src/main.py:40 | Re-joining the fields of a split with the separator gives back the text. |
| PyText.JoinSplit | pflichtenheft_parser.py:11-26 | Joining parts that contain no separator and splitting again gives the parts back. |
| PyText.SplitLastEmpty | src/main.py:40 | The last field is empty exactly when the text is empty or ends with the separator. |
| PyText.StripStart | src/main.py:40 | Leading whitespace is removed. The result is a suffix of the text, and all that was removed is whitespace. |
| PyText.StripEnd | src/main.py:40 | Trailing whitespace is removed. The result is a prefix of the text, and all that was removed is whitespace. |
| PyText.Strip | src/main.py:40 | The stripped text is empty or neither starts nor ends with whitespace. |
| PyText.StripTrailing | src/main.py:40 | Text with visible ends, followed only by whitespace (such as a line break), strips back to itself. |
| PyText.Capitalize | pflichtenheft_parser.py:102 | The length is kept, the first character is upper-cased and the rest are lower-cased (ASCII). |
| PyText.EndsWithSuffix | pflichtenheft_parser.py:83-92 | A text ending in `a + b` ends in `b`, so a path ending in `<name>.vcf` ends in `.vcf`. |
| PyText.PathJoin | pflichtenheft_parser.py:83-92 | The joined path ends with the second part. It starts with the first part unless the second part is absolute. |
| PyData.Member | pflichtenheft_parser.py:107 | `dict.get` gives the value of a present key and `None` for an absent one. |
| PyData.FalsyValues | pflichtenheft_parser.py:30 | Python truthiness, as the `if` and `or` tests use it: the falsy values are exactly `None`, `False`, `0`, `""`, `[]` and `{}`. |
| PyData.DecimalString | src/zdp_api.py:124 | `str()` of an int is never empty. |
| PyData.Str | pflichtenheft_parser.py:147 | `str(v)` is empty exactly when `v` is the empty string, and it is the string itself for a string. |
| PyData.FilterEntries | pflichtenheft_parser.py:67 | Every entry kept by the dict comprehension passes the test, and every entry that passes is kept. |
| PyData.FilterKeepsOrder | pflichtenheft_parser.py:67 | The filtered dict is a subsequence of the dict. So are its keys. |
| PyData.FilterFromEntries | pflichtenheft_parser.py:67 | Every entry of the filtered dict comes from the dict. |
| PyData.FilterMembership | src/zdp_api.py:115 | An entry is in the filtered dict exactly when its value passes the test. |
| PyData.FilterDropsKey | src/zdp_api.py:115 | The key of a dropped entry with a unique key is absent from the filtered dict. |
| PyData.FilterKeepsLast | pflichtenheft_parser.py:67 | A kept last entry stays last. |
| PyData.FilterKeepsFrame | pflichtenheft_parser.py:67 | Kept first two and last entries stay first two and last. |
| PflichtenheftParser.HeaderColumns | pflichtenheft_parser.py:9-26 | The header has fourteen columns. Splitting it at `,` gives the column names in order. |
| PflichtenheftParser.NoCommaInHeaderNames | pflichtenheft_parser.py:11-26 | No column name contains the delimiter. |
| PflichtenheftParser.Normalize | pflichtenheft_parser.py:115 | `None` and `"n/a"` become `""`. Every other value is returned unchanged. |
| PflichtenheftParser.Descend | pflichtenheft_parser.py:111-115 | The sub-key walk never returns `None` or `"n/a"`. |
| PflichtenheftParser.Lookup | pflichtenheft_parser.py:104-115 | A record that is not a mapping gives `""`, since the exception is caught. `get` without sub-keys never raises, and no result is `None` or `"n/a"`. |
| PflichtenheftParser.Field | pflichtenheft_parser.py:107-115 | `get(key)` succeeds and is never `None`. |
| PflichtenheftParser.Get | pflichtenheft_parser.py:104-115 | The loop that reassigns `value` per sub-key returns exactly `Lookup`. |
| PflichtenheftParser.DescendAlongPath | pflichtenheft_parser.py:111-115 | Through non-empty mappings, `get` returns the value at the end of the path, with `None` and `"n/a"` read as `""`. |
| PflichtenheftParser.DescendStopsAtFalsy | pflichtenheft_parser.py:112-113 | A falsy value met before the last sub-key gives `""`. |
| PflichtenheftParser.DescendFailsOnNonMapping | pflichtenheft_parser.py:114 | A truthy non-mapping met before the last sub-key raises `AttributeError` on the next sub-key. |
| PflichtenheftParser.SubscriptAll | pflichtenheft_parser.py:32 | `item[key]` over the list succeeds exactly when every item is a mapping with the key. It gives their values in order. |
| PflichtenheftParser.ExtractSubCsv | pflichtenheft_parser.py:28-32 | A falsy list gives `""` and a truthy non-list raises. A list succeeds exactly when every item holds a string at `key`, and then gives those strings joined by `", "` in list order. |
| PflichtenheftParser.ExtractKursCodes | pflichtenheft_parser.py:34-38 | `""` for a falsy course list; a TypeError for a truthy non-list. A list succeeds exactly when every course holds a string `code`, and then gives the codes joined by `", "` in list order. |
| PflichtenheftParser.ConvertBooleanValue | pflichtenheft_parser.py:40-44 | The result is `TRUE` or `FALSE`. A mapping is `TRUE` exactly for the codes `JA` and `IE`; anything else is `TRUE` exactly when truthy. |
| PflichtenheftParser.ConstructName | pflichtenheft_parser.py:46-50 | "first last" when both are truthy, otherwise `first or last`. The result is truthy exactly when either part is. |
| PflichtenheftParser.Kind | pflichtenheft_parser.py:60 | `org` exactly when there is no first name, no last name and no function, but there is an organisation. Otherwise `individual`. |
| PflichtenheftParser.VCardDraft | pflichtenheft_parser.py:54-66 | The `fields` dict has the eleven keys in order, `BEGIN`/`VERSION` first, `END` last, and at position 5 the `KIND` that `Kind` decides. |
| PflichtenheftParser.VCardEntries | pflichtenheft_parser.py:67 | After dropping empty values, the card still opens with `BEGIN`, `VERSION` and closes with `END`, and every value left is truthy. |
| PflichtenheftParser.FilteredDraftFrame | pflichtenheft_parser.py:67 | Dropping empty values keeps `BEGIN`, `VERSION` first and `END` last. |
| PflichtenheftParser.VCardValuesNonEmpty | pflichtenheft_parser.py:67 | No property on a card has an empty value. |
| PflichtenheftParser.VCardKeyOrder | pflichtenheft_parser.py:54-67 | The properties appear in the fixed key order. |
| PflichtenheftParser.VCardPresence | pflichtenheft_parser.py:67 | A property is on the card exactly when its value is truthy. |
| PflichtenheftParser.VCardFullName | pflichtenheft_parser.py:57-67 | `FN` with `construct_name(first, last)` is on the card exactly when a first or last name is given. |
| PflichtenheftParser.VCardStructuredName | pflichtenheft_parser.py:58-67 | `N` with `last;first;;;` (family name first, section 6.2.2 of RFC 6350) is on the card exactly when a first or last name is given. |
| PflichtenheftParser.VCardValues | pflichtenheft_parser.py:59-67 | `ORG`, `TITLE`, both work phones and `EMAIL` are on the card, each with its own argument as value, exactly when that argument is non-empty. |
| PflichtenheftParser.VCardLines | pflichtenheft_parser.py:68 | One line per property, in order, each the key, a colon and `str()` of the value. |
| PflichtenheftParser.CardText | pflichtenheft_parser.py:68 | When no line holds a line break, splitting the card text at `"\n"` gives the lines back. |
| PflichtenheftParser.CardTextOpening | pflichtenheft_parser.py:68 | Properties opening with `BEGIN` and `VERSION` give text opening with those two lines. |
| PflichtenheftParser.CardTextClosing | pflichtenheft_parser.py:68 | Properties closing with `END` give text closing with that line. |
| PflichtenheftParser.CreateVCard | pflichtenheft_parser.py:52-68 | Every card starts with `BEGIN:VCARD`, `VERSION:4.0` and ends with `END:VCARD`. |
| PflichtenheftParser.DraftKind | pflichtenheft_parser.py:60-67 | A filtered draft carries exactly one `KIND` value: the draft's. |
| PflichtenheftParser.KindProperty | pflichtenheft_parser.py:60-67 | `KIND:org` is on the card exactly in the org case, and `KIND:individual` exactly otherwise. |
| PflichtenheftParser.CompanyCardIsIndividual | pflichtenheft_parser.py:134-143 | The company card passes the company name as the last name, so it is always `KIND:individual`, never `org`. |
| PflichtenheftParser.SavePath | pflichtenheft_parser.py:70-97 | No directory: nothing is written. `ValueError` exactly when neither a filename nor an organisation id is given. Otherwise a path ending in `<name>.vcf`. |
| PflichtenheftParser.SavePathCompany | pflichtenheft_parser.py:79-83 | With only an organisation id, the path is `dir/<org>.vcf`. |
| PflichtenheftParser.SavePathNested | pflichtenheft_parser.py:84-89 | With a filename and an organisation id, the path is `dir/<org>/<filename>.vcf`. |
| PflichtenheftParser.SavePathFlat | pflichtenheft_parser.py:84-92 | With a filename and no (or an empty) organisation id, the path is `dir/<filename>.vcf`. |
| PflichtenheftParser.ContactName | pflichtenheft_parser.py:119 | The contact name is never `None`. |
| PflichtenheftParser.CompanyId | pflichtenheft_parser.py:118 | The company id is never `None`. |
| PflichtenheftParser.ContactCard | pflichtenheft_parser.py:122-130 | The contact card is a vCard of the contact's fields with the company as organisation: it opens with `BEGIN:VCARD`, `VERSION:4.0` and ends with `END:VCARD`. |
| PflichtenheftParser.CompanyCard | pflichtenheft_parser.py:135-143 | The company card is a vCard with the company name as last name and organisation: it opens with `BEGIN:VCARD`, `VERSION:4.0` and ends with `END:VCARD`. |
| PflichtenheftParser.ContactCardPath | pflichtenheft_parser.py:131 | The contact card goes where `save_vcard(…, contact_name, company_id)` puts it, a path ending in `.vcf`. |
| PflichtenheftParser.CompanyCardPath | pflichtenheft_parser.py:144 | The company id is passed as the filename, so the company card is `<dir>/<company id>.vcf`. |
| PflichtenheftParser.ContactFile | pflichtenheft_parser.py:121-131 | The contact card file has a `.vcf` path. |
| PflichtenheftParser.CompanyFile | pflichtenheft_parser.py:134-144 | The company card file has a `.vcf` path. |
| PflichtenheftParser.CardFiles | pflichtenheft_parser.py:121-144 | No cards without a directory. Two cards, contact first, exactly when there is also a contact name. The company card is always the last. |
| PflichtenheftParser.VCardPathCell | pflichtenheft_parser.py:120-131 | `""` unless there is a contact name and a directory. Then it is the path of the first card written, and non-empty. |
| PflichtenheftParser.RowCells | pflichtenheft_parser.py:146-162 | One cell per header column. The column lemmas below pin each cell to its source expression. |
| PflichtenheftParser.Collect | pflichtenheft_parser.py:146-162 | The row succeeds exactly when every cell does. Otherwise the first cell's exception propagates. |
| PflichtenheftParser.RowTexts | pflichtenheft_parser.py:146-163 | A successful row has one text per header column. |
| PflichtenheftParser.RowTextAt | pflichtenheft_parser.py:147 | Text `k` of a row that succeeds is `str()` of cell `k`, and that cell did not raise. |
| PflichtenheftParser.TextCell | pflichtenheft_parser.py:151-158 | A text result as a cell: the same text, or the same exception. |
| PflichtenheftParser.PostcodeColumn | pflichtenheft_parser.py:148 | Column 1 is `str()` of the address's `plz`. |
| PflichtenheftParser.CompanyNameColumn | pflichtenheft_parser.py:150 | Column 3 is `str()` of `eibName`. |
| PflichtenheftParser.ActivitiesColumn | pflichtenheft_parser.py:151 | Column 4 is the activities' short descriptions joined by `", "`. |
| PflichtenheftParser.DurationColumn | pflichtenheft_parser.py:152 | Column 5 is `str()` of `mindestdauerEinsatzInWochen`. |
| PflichtenheftParser.WorkTimeColumn | pflichtenheft_parser.py:153 | Column 6 is `str()` of the working-time model's `text<Lang>`. |
| PflichtenheftParser.CoursesColumn | pflichtenheft_parser.py:158 | Column 11 is the course codes joined by `", "`. |
| PflichtenheftParser.ContactNameColumn | pflichtenheft_parser.py:159 | Column 12 is the contact name. |
| PflichtenheftParser.Quote | pflichtenheft_parser.py:147 | The quoted cell is the cell between two double quotes. |
| PflichtenheftParser.QuoteAll | pflichtenheft_parser.py:147 | Every cell is quoted, in order. |
| PflichtenheftParser.FieldLength | pflichtenheft_parser.py:146-147 | A CSV reader (section 2 of RFC 4180) ends a field at a comma outside quotes, or at the end of the line. |
| PflichtenheftParser.CsvFields | pflichtenheft_parser.py:146-147 | The reader finds at least one field in any line. |
| PflichtenheftParser.CsvFieldsJoin | pflichtenheft_parser.py:146-147 | The reader only cuts at commas: re-joining its fields with commas gives the line back. |
| PflichtenheftParser.FieldLengthInside | pflichtenheft_parser.py:147 | Inside quotes, text without a quote is read through, commas included. |
| PflichtenheftParser.QuotedFieldLength | pflichtenheft_parser.py:147 | A quoted cell without a quote inside is read as one field. |
| PflichtenheftParser.CsvFieldsQuoted | pflichtenheft_parser.py:147 | A line made of one such quoted cell is one field. |
| PflichtenheftParser.CsvFieldsAfterQuoted | pflichtenheft_parser.py:146-147 | After such a quoted cell and a comma, the reader starts the next field. |
| PflichtenheftParser.QuotedJoinFields | pflichtenheft_parser.py:146-147 | A CSV reader reads back exactly the quoted cells of a joined row whose cells hold no `"`. |
| PflichtenheftParser.RenderRow | pflichtenheft_parser.py:146-147 | With no `"` inside any cell, a CSV reader gets one field per cell back, each the quoted cell, whatever commas the cells hold. |
| PflichtenheftParser.RenderTexts | pflichtenheft_parser.py:146-163 | An exception in a cell propagates unchanged. Otherwise the joined row reads back as the quoted cells when no cell holds `"`. |
| PflichtenheftParser.CsvRow | pflichtenheft_parser.py:146-163 | The row raises exactly when a cell raises, with that exception. Otherwise, when no cell holds `"`, a CSV reader gets the quoted cell texts back. |
| PflichtenheftParser.RenderRowColumns | pflichtenheft_parser.py:146-147 | With no comma in any cell, even a plain split at `,` gives the quoted cells back. |
| PflichtenheftParser.CsvRowMatchesHeader | pflichtenheft_parser.py:146-163 | A row whose cells hold no `"` reads, with a CSV reader, as many columns as the header, whatever commas the cells hold. |
| PflichtenheftParser.OrSchweiz | pflichtenheft_parser.py:149 | `x or "Schweiz"` keeps a truthy value, replaces a falsy one and passes an exception on. The result is truthy. |
| PflichtenheftParser.CodeFlag | pflichtenheft_parser.py:154-155 | `TRUE` exactly when the looked-up value is the code, otherwise `FALSE`. An exception from the lookup is passed on. |
| PflichtenheftParser.CodeFlagCells | pflichtenheft_parser.py:154-155 | Column 7 is `TRUE` exactly when `wochenendarbeit.code` is `M`. Column 8 is `TRUE` exactly when `nachtarbeit.code` is `J`. |
| PflichtenheftParser.BooleanCells | pflichtenheft_parser.py:154-161 | Columns 9, 10 and 14 are `convert_boolean_value` of their fields. All five flag columns are `TRUE` or `FALSE`. |
| PflichtenheftParser.CountryCell | pflichtenheft_parser.py:149 | The country cell is the `text<Lang>` value when truthy, else `Schweiz`, so it is never empty. |
| PflichtenheftParser.VCardPathColumn | pflichtenheft_parser.py:120-160 | Column 13 holds the contact card's path. It is empty exactly when there is no contact name or no directory. |
| PflichtenheftParser.VCardPathCopied | pflichtenheft_parser.py:160 | Column 13 is the given `vcard_path` unchanged. |
| PflichtenheftParser.Written | pflichtenheft_parser.py:94-95 | Writing cards never removes a file. |
| PflichtenheftParser.WrittenPaths | pflichtenheft_parser.py:94-95 | The files after the writes are the old files and the cards' paths, no more. |
| PflichtenheftParser.WrittenLast | pflichtenheft_parser.py:94-95 | After the writes, the last card's path holds that card. |
| PflichtenheftParser.WrittenSurvives | pflichtenheft_parser.py:94-95 | A card whose path no later card names stays on disk. |
| PflichtenheftParser.WrittenUntouched | pflichtenheft_parser.py:94-95 | A path that no card names keeps its old content, or stays absent. |
| PflichtenheftParser.VcfStore.SaveVcard | pflichtenheft_parser.py:70-97 | Returns the chosen path (or the error) and writes the content there. With no directory, nothing changes. |
| PflichtenheftParser.SaveContactCard | pflichtenheft_parser.py:120-131 | With a contact name and a directory, the contact card is written at its path, which is returned as `vcard_path`. Otherwise nothing is written and `vcard_path` is `""`. |
| PflichtenheftParser.SaveCompanyCard | pflichtenheft_parser.py:134-144 | With a directory, the company card is written at its path. Otherwise nothing changes. |
| PflichtenheftParser.CardFilesWritten | pflichtenheft_parser.py:120-144 | Writing the record's cards sets the contact path and then the company path, or only the company path, or nothing, by the same conditions as the source. |
| PflichtenheftParser.SaveCards | pflichtenheft_parser.py:117-144 | Writes the contact card if there is a contact name, then the company card, whenever a directory is given. Returns the `vcard_path` cell. |
| PflichtenheftParser.ContactCardOnDisk | pflichtenheft_parser.py:121-131 | With a contact name, the contact card ends up on disk unless the company card takes the same path. |
| PflichtenheftParser.CompanyCardOnDisk | pflichtenheft_parser.py:133-144 | With a directory, the company card ends up on disk. |
| PflichtenheftParser.OtherFilesUntouched | pflichtenheft_parser.py:117-144 | Every other file is left as it was. |
| PflichtenheftParser.JsonToCsv | pflichtenheft_parser.py:99-163 | The returned row is `CsvRow`, and the directory holds the written cards. |
| ZdpApi.Locale.Tag | src/zdp_api.py:10-14 | Every locale tag is a two-letter language code followed by `-CH`: the values the API expects in `x-zivi-locale`. |
| ZdpApi.RadiusRejected | src/zdp_api.py:91 | A missing or zero radius is never rejected; a negative radius or one above 25 always is; 0, 5, …, 25 never are. |
| ZdpApi.DurationRejected | src/zdp_api.py:94 | A duration is rejected exactly when it is not missing, not zero and not one to fifty-two weeks. |
| ZdpApi.TooMany | src/zdp_api.py:97-100 | A list is rejected exactly when it holds more than three ids. |
| ZdpApi.RadiusCheckMatchesChoices | src/zdp_api.py:91-92 | The radius check rejects exactly the radii outside 0, 5, …, 25, which are the choices `src/main.py:22` offers. |
| ZdpApi.Validate | src/zdp_api.py:90-101 | Passes exactly when radius, duration and both list lengths are allowed. Otherwise it raises the first failing check's message, in source order. |
| ZdpApi.FalsyParamsPass | src/zdp_api.py:91-100 | A zero radius, a zero duration and empty lists skip their checks. |
| ZdpApi.PayloadDraft | src/zdp_api.py:104-112 | Seven entries in source order, each key carrying its own parameter, `None` when that parameter is not given. |
| ZdpApi.PayloadDraftKeys | src/zdp_api.py:104-112 | The payload keys, in order. |
| ZdpApi.Payload | src/zdp_api.py:114-115 | No value left in the payload is `None`. |
| ZdpApi.PayloadShape | src/zdp_api.py:114-115 | The payload holds no `None`, and keeps the entries and their keys in order. |
| ZdpApi.PayloadDropsExactlyNone | src/zdp_api.py:114-115 | An entry is sent exactly when its value is not `None`. |
| ZdpApi.GivenParamsSent | src/zdp_api.py:104-115 | Every parameter that is given is sent under its own key with its own value. |
| ZdpApi.ZeroRadiusSent | src/zdp_api.py:104-115 | A radius of `0`, which passes validation as falsy, is still sent. |
| ZdpApi.NoneParamNotSent | src/zdp_api.py:114-115 | A `None` parameter's key is absent from the payload. |
| ZdpApi.DistinctPayloadKeys | src/zdp_api.py:104-112 | The payload keys are pairwise distinct. |
| ZdpApi.HeaderList | src/zdp_api.py:53-60 | The header dict has six entries with pairwise distinct names. |
| ZdpApi.HeaderListValues | src/zdp_api.py:53-60 | The header dict holds the content type, locale, authorization, origin and referer values. |
| ZdpApi.StatusError | src/zdp_api.py:124 | The message starts with `API request failed with status ` and ends with `: <text>`. |
| ZdpApi.CheckStatus | src/zdp_api.py:123-124 | An error exactly when the status is not 200. |
| ZdpApi.ZiviConnectClient.constructor | src/zdp_api.py:26-38 | Sets the base URL, the locale and the token. The cookie jar holds the given cookies, or is empty. |
| ZdpApi.ZiviConnectClient.GetHeaders | src/zdp_api.py:50-60 | `ApiError("Authentication token not set.")` exactly when the token is `None` or empty. |
| ZdpApi.ZiviConnectClient.HeadersCarrySession | src/zdp_api.py:53-60 | With a token, the headers carry `Bearer <token>`, the locale, the origin, the referer and the JSON content type. |
| ZdpApi.ZiviConnectClient.Post | src/zdp_api.py:117-127 | The request is appended to the session log. The result is the body on status 200, otherwise the status error. |
| ZdpApi.ZiviConnectClient.Search | src/zdp_api.py:90-127 | A validation or token failure raises and posts nothing. Otherwise exactly one request (search URL, headers, filtered payload) is posted and the status decides the result. |
| CliMain.CookieFields | src/main.py:40 | The fields of the stripped line hold no tab, and joined by tabs they give back the stripped line. |
| CliMain.LineCookie | src/main.py:39-42 | A line yields a cookie exactly when it is not a comment and has at least seven tab-separated fields after strip. The cookie's name is field 6 and its value field 7, neither holding a tab. |
| CliMain.Store | src/main.py:42 | Every pair in the map is one of the cookies found. |
| CliMain.ParseCookies | src/main.py:34-43 | Every pair in the map is the cookie of one of the lines. |
| CliMain.ParseCookiesStep | src/main.py:38-42 | Reading one more line stores its cookie under its name if it yields one, and leaves the map alone otherwise. |
| CliMain.ParseCookiesFile | src/main.py:34-43 | The loop over the lines produces `ParseCookies(lines)`. |
| CliMain.StorePresent | src/main.py:38-42 | A name is in the map exactly when some cookie has it. |
| CliMain.StoreLastWins | src/main.py:42 | The map holds the value of the last cookie with that name. |
| CliMain.StoreSkipsNone | src/main.py:39-41 | A position that yields no cookie does not change the map. |
| CliMain.CookiePresent | src/main.py:38-43 | A name is in the parsed map exactly when some line yields a cookie with that name (field 6). |
| CliMain.CookieFromLastLine | src/main.py:38-42 | A later line overrides an earlier one: the value is field 7 of the last line that names the cookie. |
| CliMain.NothingAcceptedIsEmpty | src/main.py:36-43 | The map is empty exactly when no line yields a cookie. |
| CliMain.RejectedLineIgnored | src/main.py:39-41 | Deleting a comment, short or blank line anywhere leaves the map unchanged. |
| CliMain.LastFieldNonEmpty | src/main.py:40-41 | Strip comes before split, so the last field of an accepted line is never empty. |
| CliMain.EmptyValueLineDropped | src/main.py:40-41 | Any line made of six tab-separated fields with visible ends, then a tab and only whitespace (an empty value column), yields no cookie: strip removes the last tab. |

## Left out

- PyData.Truthy: carries no contract of its own because it occurs in nearly every obligation. The lemma `PyData.FalsyValues` states which values are falsy.
- PyText.Join: its contract states only the empty result and that the result starts with the first part. The lemmas `JoinSplit` and `SplitJoin` give the round trips with `Split`.
- I/O is not modelled: reading JSON and cookie files, printing the header and rows, `argparse`, and the `main` functions of both scripts. Files arrive as decoded values or as lists of lines.
- The HTTP session is not modelled. `search` records the request it would post. The status code, the response text and the JSON body are parameters, and network errors are not modelled.
- `os.makedirs` is not modelled. Directories are implied by the paths in the file map.
- Exceptions from writing files are not modelled.
- The error print in `get` (`pflichtenheft_parser.py:109`) is not modelled. The caught exception's `""` result is modelled.
- `PyData.Str`: `str()` of a list or dict is a fixed stand-in, not Python's `repr`. Floats from JSON are not represented.
- `PyText.Capitalize`: only ASCII letters change case. Python's Unicode case mapping is not modelled.
- `PflichtenheftParser.RenderRow`: quotes inside a cell are not doubled, as in the source. Every cell is quoted, so a comma inside a cell is read as part of the cell. Only a `"` inside a cell can break the row for a CSV reader, so `RenderRow`, `CsvRow` and `CsvRowMatchesHeader` state the read-back only for cells without `"`.
- `PflichtenheftParser.SavePath`: `vcf_dir=None` and `vcf_dir=""` are both the empty string. Both are falsy, and the source treats them the same.
- `PflichtenheftParser.ContactCardOnDisk`: states survival only when the contact and company paths differ. When they coincide, `WrittenLast` shows the company card wins.
- `ZdpApi.ZiviConnectClient.GetHeaders`: the header values are stated by the separate lemma `HeadersCarrySession`, not by its own contract. The `Accept` header is only in `HeaderList`.
- `ZdpApi.ZiviConnectClient.constructor`: the `requests.Session` object is reduced to its cookie jar and a log of posted requests.
- `CliMain.ParseCookiesFile`: lines come as a list of strings including their line breaks. The file's encoding and universal-newline translation are not modelled.
- `ApiError` is a value returned in `Err`, not a raised exception. `KeyboardInterrupt` handling is not modelled.
- `src/main.py` passes `--locale` as a plain string. The model uses the three-valued `Locale`, whose tags are the same strings.
- `json_to_csv` writes the company card whenever a directory is given, even when the company has no name. Such a card holds only `BEGIN`, `VERSION`, `KIND:individual` and `END`, plus any phone and email.
