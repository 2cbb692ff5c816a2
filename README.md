# php-restclient in Dafny

A model of the PHP REST client library `php-restclient` and proofs about it. The library has two generations, and both are modelled.

**Version 2 (`src/`).** The `RestClient` class is built from value objects for the parts of a request:
- `Path`: a URL path as its `/`-separated segments;
- `Params`: query or body parameters, parsed from and printed to `application/x-www-form-urlencoded` text;
- `Headers`: header fields;
- `Resource`: a URL split into scheme, host, port, path and query;
- `Response`: the parsed and decoded reply;
- the `Param` attribute: declares a client method's parameter, its type and allowed values.

**Version 1 (`restclient.php`).** The legacy single-class client. It keeps its options in an array, composes the cURL options itself, gathers repeated response header names into lists, and caches the decoded body.

How the model is built:
- **PHP arrays** are sequences of `(Key, value)` pairs. `Key` is `IntKey(n)` or `StrKey(s)`, and string keys that spell a canonical integer become int keys, as in PHP.
- **PHP builtins** are modelled in small modules under their own names: `explode`, `implode`, `trim`, `strtoupper`, `urlencode`, `array_merge`, `array_merge_recursive` and loose `in_array`.
- **Objects** the library updates in place are classes whose methods name what they modify. These are `Path`, `Headers`, `Params`, `Resource`, `Response` and both clients. The `Param` attribute is a class too, set once by its constructor.
- **Pure operations** are functions, with the properties about them as lemmas.
- **Loops** are methods with loop invariants, proved against those functions: parsing a query string, `parse_response` and the header-line loops of version 1.
- **cURL is a function parameter.** The model builds the option array handed to `curl_setopt_array`. The transfer is a parameter mapping those options to the raw reply, the error text and `http_code`.
- **Decoders are opaque.** Version 2 stores "decoder `d` applied to the body". Version 1 applies a caller-supplied function from the decoder and the text to a value.
- **Errors** are `Result` values. The exceptions the code throws and the PHP errors it runs into are both modelled this way: a `TypeError` under `strict_types`, or calling `merge()` on a string.

The modules, in dependency order:
- `PhpString`, `PhpArray`, `PhpCompare` and `Errors`: the builtins and errors;
- `Paths`, `Parameters`, `HeaderFields` and `Resources`: the value objects;
- `Responses`;
- `Client` (the request plan) and `RestClients` (the class);
- `LegacyQuery` and `LegacyClient` (version 1);
- `ParamAttributes`.

## Model

| member | source | states |
|---|---|---|
| `PhpString.Explode` | src/RestClient/Path.php:49 | `explode` on one character gives one part more than the separator occurs, and no part holds the separator |
| `PhpString.ImplodeExplode` | src/RestClient/Path.php:28-49 | imploding the exploded parts with the same separator restores the text |
| `PhpString.ExplodeImplode` | src/RestClient/Path.php:28-49 | exploding imploded parts that hold no separator gives the parts back |
| `PhpString.ExplodeNoSep` | src/RestClient/Params.php:78 | text without the separator explodes to itself alone |
| `PhpString.ExplodeSplit` | src/RestClient/Params.php:78 | `explode` splits at the first separator and goes on with the rest |
| `PhpString.ExplodeJoin` | src/RestClient/Path.php:49 | exploding a concatenation joined at a separator is the concatenation of both explodes |
| `PhpString.SplitFirst` | src/RestClient/Params.php:79 | `explode(sep, s, 2)`: a single part exactly when the separator is missing, otherwise the text before the first separator and everything after it |
| `PhpString.SplitFirstAt` | src/RestClient/Params.php:79 | a text with its first separator after `a` splits into `a` and the rest |
| `PhpString.TrimLeft` | src/RestClient/Response.php:131 | strips exactly the leading run of `trim`'s whitespace set |
| `PhpString.TrimRight` | src/RestClient/Response.php:131 | strips exactly the trailing run of `trim`'s whitespace set |
| `PhpString.Trim` | src/RestClient/Response.php:131 | the result is a slice of the input, with no whitespace left at either end and only whitespace removed |
| `PhpString.TrimEmptyIff` | src/RestClient/Response.php:126 | a line trims to empty exactly when every character is whitespace |
| `PhpString.ToUpper` | src/RestClient.php:217 | same length, no ASCII lower-case letter left, every other character kept |
| `PhpString.ToUpperIdempotent` | src/RestClient.php:193-217 | upper-casing the verb in `__call` and again in `execute` is the same as doing it once |
| `PhpString.ToLower` | restclient.php:285 | same length, no ASCII upper-case letter left, every other character kept |
| `PhpString.ReplaceChar` | restclient.php:285 | `str_replace` of one character: same length, the old character gone, all other characters kept |
| `PhpString.NatDigits` | src/RestClient/Params.php:114 | a natural number prints as decimal digits with no leading zero |
| `PhpString.DigitsValueNatDigits` | src/RestClient/Params.php:114 | reading the printed digits back gives the number |
| `PhpString.CanonicalInt` | src/RestClient/Params.php:85 | a key string taken as an integer key is within the 64-bit range |
| `PhpString.CanonicalIntDecimal` | src/RestClient/Params.php:85 | every 64-bit integer printed in decimal is read back as that integer key |
| `PhpString.DecimalCanonicalInt` | src/RestClient/Params.php:85 | a string read as an integer key is exactly that integer's decimal form |
| `PhpString.Utf8` | src/RestClient/Params.php:119 | `urlencode` works on the UTF-8 bytes of a character: one to four bytes, ASCII as itself, all bytes of a non-ASCII character at least 0x80 |
| `PhpString.UrlEncodeChars` | src/RestClient/Params.php:119 | `urlencode` output holds only unreserved characters, `+` and `%XX` triples |
| `PhpString.UrlEncodeAppend` | src/RestClient/Params.php:119 | `urlencode` of a concatenation is the concatenation of the encodings |
| `PhpString.UrlEncodeUnreserved` | src/RestClient/Params.php:119 | text made only of unreserved characters encodes to itself |
| `PhpString.UrlDecodeEncode` | src/RestClient/Params.php:119 | decoding `urlencode(s)` gives back the UTF-8 bytes of `s` |
| `PhpArray.NormalizeKey` | src/RestClient/Params.php:87 | an array key written as a string is always a valid key (a canonical integer string becomes an int key) |
| `PhpArray.KeyStringNormalize` | src/RestClient/Params.php:87 | the key made from a string prints back as that string |
| `PhpArray.Get` | src/RestClient/Headers.php:45 | a lookup finds a value exactly when `array_key_exists` holds |
| `PhpArray.Put` | src/RestClient/Headers.php:18 | assigning to an existing key replaces its value in place; a new key is appended |
| `PhpArray.GetPut` | src/RestClient/Headers.php:18 | after an assignment the key reads the new value and every other key reads as before |
| `PhpArray.PutAllArray` | src/RestClient/Headers.php:16-19 | assigning an array's entries one by one into an empty array copies it |
| `PhpArray.PutAllGet` | src/RestClient/Headers.php:16-19 | after assigning a list of entries, a key reads the assigned value when it was assigned, and the old value otherwise |
| `PhpArray.NextIndex` | src/RestClient/Params.php:83 | the index `[]` appends at is above every int key |
| `PhpArray.Push` | src/RestClient/Params.php:83 | `$a[] = v` appends one entry under a fresh int key, keeps the rest, and keeps keys distinct |
| `PhpArray.RenumberFrom` | src/RestClient.php:269 | `array_merge` renumbers int keys from the given start and keeps string keys and all values |
| `PhpArray.FindRenumberFrom` | src/RestClient/Headers.php:36 | renumbering the first operand of `array_merge` leaves every string key at the position it had |
| `PhpArray.ArrayMergeDistinct` | src/RestClient/Headers.php:36 | `array_merge` yields distinct keys |
| `PhpArray.ArrayMergeGet` | src/RestClient/Headers.php:36 | in `array_merge(a, b)` a string key reads b's value when b has it, and a's otherwise |
| `PhpArray.ArrayMergeStrings` | src/RestClient/Headers.php:36 | with string keys only, `array_merge` keeps a's order with b's values overlaid, then appends b's new keys in b's order |
| `PhpArray.ArrayMergeLists` | src/RestClient/Path.php:47 | `array_merge` of two lists is the list of their concatenation |
| `PhpArray.Combine` | src/RestClient/Params.php:59 | `array_merge_recursive` always turns a key present on both sides into an array |
| `PhpArray.ArrayMergeRecursiveDistinct` | src/RestClient/Params.php:59 | `array_merge_recursive` yields distinct keys |
| `PhpArray.ArrayMergeRecursiveGet` | src/RestClient/Params.php:59 | a string key present on both sides holds the two values combined; on one side only it keeps that value |
| `PhpArray.ArrayMergeRecursiveStrings` | src/RestClient/Params.php:59 | with string keys only, the result keeps a's order with shared keys combined, then b's new keys |
| `PhpArray.CombineScalars` | src/RestClient/Params.php:59 | two scalars under one key become the list of both |
| `PhpArray.CombineLists` | src/RestClient/Params.php:59 | two lists under one key become their concatenation |
| `PhpCompare.InArrayIff` | src/RestClient.php:194 | `in_array` holds exactly when some element is loosely equal |
| `PhpCompare.LooseEqSymmetric` | src/RestClient/Attributes/Param.php:65 | loose `==` is symmetric |
| `PhpCompare.LooseEqReflexive` | src/RestClient/Attributes/Param.php:65 | loose `==` is reflexive |
| `PhpCompare.LooseEqNonNumeric` | src/RestClient.php:149 | against a non-numeric string, loose `==` on strings is plain equality |
| `PhpCompare.InArrayOfName` | src/RestClient.php:194 | for an identifier (a letter or `_` first), loose membership is exact membership |
| `PhpCompare.NameNotNumeric` | src/RestClient.php:194 | a name starting with a letter or `_` is not a numeric string |
| `PhpCompare.NotTransitive` | src/RestClient/Attributes/Param.php:65 | loose `==` is not transitive: `null == 0` and `null == ""` but `0 != ""` |
| `Paths.Path.constructor` | src/RestClient/Path.php:19-22 | the parts are empty for a falsy argument, and otherwise what `append` would add |
| `Paths.Path.Append` | src/RestClient/Path.php:45-53 | the parts become the old parts followed by the argument's segments: a string exploded on `/`, an array as it is, null nothing; returns the path itself |
| `Paths.Path.AppendPath` | src/RestClient/Path.php:46-47 | appending another `Path` concatenates its parts |
| `Paths.StringRoundTrip` | src/RestClient/Path.php:19-29 | a path built from a truthy string prints back as that string |
| `Paths.FalsyIsEmpty` | src/RestClient/Path.php:21 | a falsy argument gives no parts and prints as `""` |
| `Paths.CountOfString` | src/RestClient/Path.php:34-36 | the count of a path from a string is the number of `/` plus one |
| `Paths.AbsoluteOfString` | src/RestClient/Path.php:60-62 | a path from a string is absolute exactly when the string starts with `/` |
| `Paths.RenderAppend` | src/RestClient/Path.php:28 | printing two non-empty part lists joined is printing each, with a `/` between |
| `HeaderFields.Lines` | src/RestClient/Headers.php:24-26 | one `Name: value` line per field, in order |
| `HeaderFields.RenderLines` | src/RestClient/Headers.php:23-27 | for fields without newlines, splitting the printed block on newlines gives back the lines |
| `HeaderFields.Headers.constructor` | src/RestClient/Headers.php:16-19 | the fields are the argument's entries assigned in order, so a repeated name keeps its last value |
| `HeaderFields.Headers.Set` | src/RestClient/Headers.php:18 | assigning a field replaces its value in place or appends it |
| `HeaderFields.Headers.Merge` | src/RestClient/Headers.php:35-37 | a new object holding `array_merge` of both field arrays |
| `HeaderFields.MergeField` | src/RestClient/Headers.php:35-37 | in a merge, a name reads the second object's value when it has one, and the first's otherwise |
| `HeaderFields.RenderExample` | tests/HeadersTest.php:13-20 | two fields print as `Content-Type: application/json\nAccept: application/json` |
| `HeaderFields.NamesCaseSensitive` | src/RestClient/Headers.php:44-46 | `has_key` is case-sensitive: `Content-Type` is found and `content-type` is not |
| `Parameters.BuildQueryOk` | src/RestClient/Params.php:118-120 | printing fails exactly when keys are encoded and an int key holds a scalar (`urlencode` of an int under strict types) |
| `Parameters.ListPairOk` | src/RestClient/Params.php:111-116 | a list of strings under a string key prints one `key%5B%5D=value` pair per element, or `key%5Bi%5D=value` with `INDEXES`, joined by `&` |
| `Parameters.NestedPairOk` | src/RestClient/Params.php:111-121 | without `INDEXES`, a value at any depth under a string key prints as its flat pieces joined by `&`: each nested level adds `%5B%5D` and the keys below the top are dropped; an empty array is one empty piece |
| `Parameters.NestedExample` | tests/ParamsTest.php:27-30 | `['foo' => ['bar' => ['baz' => 'qux']]]` prints as `foo%5B%5D%5B%5D=qux` |
| `Parameters.EncodedListKey` | src/RestClient/Params.php:114-119 | the child key `k[i]` or `k[]` encodes to `urlencode(k)` then `%5Bi%5D` or `%5B%5D` |
| `Parameters.EncodedBrackets` | src/RestClient/Params.php:119 | `urlencode` writes `[` and `]` as `%5B` and `%5D` |
| `Parameters.EncodeAscii` | src/RestClient/Params.php:119 | a reserved ASCII character other than space becomes `%` and two upper-case hex digits |
| `Parameters.BracketKeyMatches` | src/RestClient/Params.php:80-81 | the pattern `(.+)\[(\d*)\]$` matches a name followed by `[digits]`, also before a final newline, giving that name and index |
| `Parameters.BracketKeyNone` | src/RestClient/Params.php:80-87 | a key without `]` does not match and is assigned as it is |
| `Parameters.ParseQuery` | src/RestClient/Params.php:77-90 | the loop over the `&`-separated pairs computes the reference parse |
| `Parameters.AssignPlain` | src/RestClient/Params.php:79-87 | a plain `key=value` pair assigns the value to the key |
| `Parameters.AssignAppend` | src/RestClient/Params.php:82-83 | `name[]=value` appends the value to the list under the name, starting one when the name is unset |
| `Parameters.AssignAppendToString` | src/RestClient/Params.php:83 | `name[]=value` after `name=value` raises: `[]` cannot be used on a string |
| `Parameters.ParseDistinct` | src/RestClient/Params.php:77-90 | a parsed query has distinct keys |
| `Parameters.ParseEmpty` | src/RestClient/Params.php:78-79 | the empty query parses to the key `""` holding null |
| `Parameters.ParseOverwrite` | src/RestClient/Params.php:87 | a repeated plain key keeps its last value |
| `Parameters.ParseList` | src/RestClient/Params.php:80-83 | `name[]=v1&name[]=v2…` parses to the list `[v1, v2, …]` under the name |
| `Parameters.PlainBuild` | src/RestClient/Params.php:98-121 | plain string parameters print as one `k=v` pair each, in order, with `urlencode` changing nothing |
| `Parameters.PlainParse` | src/RestClient/Params.php:77-90 | assigning the `k=v` pairs of distinct plain parameters rebuilds exactly those parameters |
| `Parameters.PlainRoundTrip` | src/RestClient/Params.php:77-121 | distinct unreserved string parameters print to `k=v&…` and parse back to the same parameters |
| `Parameters.Params.constructor` | src/RestClient/Params.php:27-33 | holds the array given; `INDEXES` defaults to false and `ENCODE_KEYS` to true |
| `Parameters.Params.FromQuery` | src/RestClient/Params.php:27-33 | a string argument is parsed first; the parse error is raised, or a fresh object holds the parse |
| `Parameters.Params.Merge` | src/RestClient/Params.php:57-61 | a fresh clone holding `array_merge_recursive` of both, with the receiver's flags |
| `Resources.Resource.Make` | src/RestClient/Resource.php:30-44 | `new Resource(parts)`: fails exactly when the reference split fails; otherwise fresh objects holding its scheme, host, port, path and query, with `INDEXES` from the argument |
| `Resources.Resource.Merge` | src/RestClient/Resource.php:68-77 | scheme, host and port from the argument unless null; the argument's path and query objects, the query taking the receiver's `INDEXES` flag |
| `Resources.EmptyQuery` | src/RestClient/Params.php:98-103 | empty parameters print as `""` |
| `Resources.BareText` | src/RestClient/Resource.php:49-60 | with no host, port or path, the URL prints as the scheme prefix followed by the query, with no `?` |
| `Resources.HostlessText` | src/RestClient/Resource.php:49-60 | with no host, port or query, the URL prints as the scheme prefix followed by the path |
| `Resources.SchemeOnlyResource` | src/RestClient/Resource.php:32-33 | `name://` takes only a scheme, and prints back as `name://` when the name is truthy |
| `Resources.FalsySchemeNotPrinted` | src/RestClient/Resource.php:51 | the scheme `0` is kept but not printed |
| `Resources.RejectedIsEmpty` | src/RestClient/Resource.php:35-37 | a string `parse_url` rejects gives a resource with every part empty, which prints as `""` |
| `Resources.SplitSchemeForm` | src/RestClient/Resource.php:35 | `scheme://rest` is split at its authority, unless it is a `file` URL whose rest starts with `/` |
| `Resources.FileUrlSplit` | src/RestClient/Resource.php:35 | `file:///…`, in any case of `file`, goes straight to the path: from the third `/`, or from the drive letter of `file:///c:/…`, with no host or port |
| `Resources.FileUrlResource` | src/RestClient/Resource.php:30-60 | `file:///path` keeps the scheme and the path's segments, has no host, and prints back unchanged |
| `Resources.DriveLetterExample` | src/RestClient/Resource.php:35 | `file:///c:/x` has the path `c:/x` |
| `Resources.RelativePathSlash` | src/RestClient/Resource.php:55 | a relative path is printed with a leading `/` |
| `Resources.QueryOnlyNoMark` | src/RestClient/Resource.php:57 | without host, port or path the query is printed without `?` |
| `Resources.ColonOnlyWithPort` | src/RestClient/Resource.php:53-54 | when no part holds a colon itself, the printed URL holds one exactly when the port is truthy |
| `Resources.SchemeOnlyLeading` | src/RestClient/Resource.php:32 | a string that does not start with a word character is not scheme-only |
| `Resources.SchemeOnlyColon` | src/RestClient/Resource.php:32 | a string without `:` is not scheme-only |
| `Resources.PortReferenceSplit` | src/RestClient/Resource.php:35 | a `:` after a part that is not a scheme, before any `?` or `#` and followed by a port, is never a relative reference: a port above 65535 fails, one after a single leading `/` fails for its empty host, and any other is outside the model |
| `Resources.SlashPortEmpty` | src/RestClient/Resource.php:35-43 | such a reference starting with a single `/` builds the empty resource |
| `Resources.NoPortRelative` | src/RestClient/Resource.php:35 | a `:` after a part that is not a scheme leaves a relative reference when a `?` or `#` comes before it or no port follows it |
| `Resources.PortReferenceExample` | src/RestClient/Resource.php:35-43 | `/page:1` and `/a:80/b` make `parse_url` fail and `/page:1` builds the empty resource, `users/1:2` is outside the model, and `/page:1?x=2` is the path `/page:1` with the query `x=2` |
| `Resources.SplitRelative` | src/RestClient/Resource.php:35 | a relative reference without `:` or `#` splits into path and query at the first `?` |
| `Resources.PathOnlyResource` | src/RestClient/Resource.php:30-60 | a path-only string gives its `/`-exploded segments and no query, and prints back with a leading `/` added when missing |
| `Resources.PathOnlyRender` | src/RestClient/Resource.php:55-56 | the segments of a truthy path print as that path, with `/` in front when it is relative |
| `Resources.PathTextOfString` | src/RestClient/Resource.php:55-56 | a path exploded from a truthy string prints as the string, with `/` in front when it is relative |
| `Resources.HostlessRender` | src/RestClient/Resource.php:55-56 | a URL with only a path prints as its path text |
| `Resources.QueryOnlyResource` | src/RestClient/Resource.php:30-60 | `?k=v&…` parses to those parameters only, and prints back without the `?` |
| `Resources.QueryOnlyBuild` | src/RestClient/Resource.php:30-44 | `?k=v&…` with plain parameters builds a URL holding exactly those parameters and nothing else |
| `Resources.QueryOnlySplit` | src/RestClient/Resource.php:35 | `?text` splits to no path and the query text |
| `Resources.QueryTextBuild` | src/RestClient/Resource.php:35-43 | a query-only URL holds the parameters its query text parses to |
| `Resources.SplitAuthorityPort` | src/RestClient/Resource.php:35 | in `host:port`, a port of up to five digits is taken when at most 65535, and rejects the whole URL above that |
| `Resources.FullUrlSplit` | src/RestClient/Resource.php:35 | `scheme://host:port/path?query` splits into its five parts |
| `Resources.UrlRoundTripBuild` | src/RestClient/Resource.php:30-44 | a full URL with plain parameters is parsed into its scheme, host, port, path segments and parameters |
| `Resources.UrlRoundTripRender` | src/RestClient/Resource.php:49-60 | those parts print back as `scheme://host:port/path?k=v&…` |
| `Resources.FullUrlExample` | tests/ResourceTest.php:12-19 | `http://example.com:80/a/index.html?foo=bar&baz=qux` parses into its parts and prints back unchanged |
| `Resources.SchemeExample` | tests/ResourceTest.php:21-28 | `https://` holds only the scheme and prints back unchanged |
| `Resources.AbsolutePathExample` | tests/ResourceTest.php:30-37 | `/foo/bar` holds only the path and prints back unchanged |
| `Resources.RelativePathExample` | tests/ResourceTest.php:39-46 | `foo/bar` holds only the path and prints as `/foo/bar` |
| `Resources.QueryExample` | tests/ResourceTest.php:48-55 | `?foo=bar&baz=qux` holds only the query and prints as `foo=bar&baz=qux` |
| `Resources.FooListParse` | tests/ResourceTest.php:57-64 | `foo[]=bar&foo[]=baz` parses to the list `[bar, baz]` under `foo` |
| `Resources.FooListBuild` | tests/ParamsTest.php:15-17 | the list `[bar, baz]` under `foo` prints as `foo%5B%5D=bar&foo%5B%5D=baz` |
| `Resources.QueryArrayExample` | tests/ResourceTest.php:57-64 | `?foo[]=bar&foo[]=baz` holds that list and prints with encoded brackets |
| `Responses.NextToken` | src/RestClient/Response.php:123-136 | `strtok` on `\n`: nothing is left exactly when only newlines remain; otherwise a non-empty token without newlines, and a shorter rest |
| `Responses.TokenOf` | src/RestClient/Response.php:136 | a line followed by a newline is the next token |
| `Responses.SkipNewline` | src/RestClient/Response.php:136 | `strtok` skips empty tokens |
| `Responses.StepOf` | src/RestClient/Response.php:124-136 | a truthy line goes through one pass of the loop body |
| `Responses.WordRun` | src/RestClient/Response.php:178 | the greedy `\w+` run at the start of a text |
| `Responses.FormatIsFirstMatch` | src/RestClient/Response.php:169-182 | the format is `text` when no `word/word` occurs, and otherwise the word after the leftmost such slash |
| `Responses.FormatScanNone` | src/RestClient/Response.php:179-181 | a scan that finds no match gives `text` |
| `Responses.FormatScanFirst` | src/RestClient/Response.php:179-180 | the scan stops at the first match |
| `Responses.FormatOfType` | src/RestClient/Response.php:178-180 | `type/subtype` gives the word run of the subtype |
| `Responses.FormatJson` | src/RestClient/Response.php:178-180 | `application/json` gives `json` |
| `Responses.FormatWithParameter` | src/RestClient/Response.php:178-180 | whatever follows the subtype from a non-word character on (a `; charset=` parameter) leaves the format as the subtype |
| `Responses.FormatWithCharset` | src/RestClient/Response.php:178-180 | `text/html; charset=utf-8` gives `html` |
| `Responses.Response.constructor` | src/RestClient/Response.php:87-97 | a falsy reply is stored as `""`; success exactly for status codes 200–299, and fail is its negation; no headers or status lines yet |
| `Responses.Response.Parse` | src/RestClient/Response.php:118-143 | the loop computes the reference parse: the status lines, the header fields, and then either the body and content type, or the error raised |
| `Responses.Response.Take` | src/RestClient/Response.php:125-135 | one pass of the loop body: a blank line after a field stops it with the body and content type, a line without `:` stops it raising, any other line moves the state on exactly as the reference step does |
| `Responses.Response.Decode` | src/RestClient/Response.php:150-152 | the data becomes the decoder applied to the body; nothing else changes |
| `Responses.Response.OffsetSet` | src/RestClient/Response.php:41-43 | assigning into the data raises `OutOfBounds` |
| `Responses.Response.OffsetUnset` | src/RestClient/Response.php:44-46 | unsetting data raises `OutOfBounds` |
| `Responses.ParseMessage` | src/RestClient/Response.php:118-141 | a message parses to its trimmed status lines, its fields assigned in order, and the rest as the body |
| `Responses.PreludeSteps` | src/RestClient/Response.php:126-131 | before any header, blank lines are skipped and status lines are collected trimmed, in order |
| `Responses.PreludeStep` | src/RestClient/Response.php:126-131 | one prelude line, blank or status |
| `Responses.BlankLineSkipped` | src/RestClient/Response.php:126-128 | a blank line before any header is skipped |
| `Responses.StatusLineKept` | src/RestClient/Response.php:130-131 | a line starting with `HTTP` is kept trimmed as a status line |
| `Responses.StatusLineCr` | src/RestClient/Response.php:126-131 | a status line followed by its CR is not blank, still starts with `HTTP`, and trims to the line without the CR |
| `Responses.FieldSteps` | src/RestClient/Response.php:132-135 | field lines assign their trimmed values, in order |
| `Responses.FieldStep` | src/RestClient/Response.php:133-134 | a `Name: value` line assigns the trimmed value to the name |
| `Responses.BlankEnds` | src/RestClient/Response.php:126-139 | a blank line after headers ends the header block; the rest is the body |
| `Responses.StatusOnly` | src/RestClient/Response.php:124-139 | a reply of status lines only gives those lines, no fields and an empty body |
| `Responses.MissingColon` | src/RestClient/Response.php:133-134 | a non-status line without `:` raises a `TypeError`: `trim(null)` under strict types |
| `Responses.ZeroLineEnds` | src/RestClient/Response.php:136 | a line `0` is falsy and ends the loop; the text after it is the body |
| `Responses.BareLfSkipped` | src/RestClient/Response.php:123 | leading newlines are skipped by `strtok` |
| `Responses.TrimCr` | src/RestClient/Response.php:131 | the `\r` left by tokenising on `\n` does not survive the trim |
| `Responses.TrimPadded` | src/RestClient/Response.php:134 | the space after the colon and the final `\r` are trimmed from a value |
| `Client.FixedOptionsKept` | src/RestClient.php:249-254 | every request sends the timeout, asks for the header block and the transferred text, and sends the user agent |
| `Client.OptionsAdded` | src/RestClient.php:249-268 | apart from the fixed options, `__invoke` sets only the header, post, custom-request, post-fields and URL options |
| `Client.HeaderLinesIffHeaders` | src/RestClient.php:255-256 | `CURLOPT_HTTPHEADER` is set exactly when the request has headers, to `(array) $request->headers` as written, so the lines cURL sends are the field values |
| `Client.PostSendsBody` | src/RestClient.php:257-260 | a POST sets `CURLOPT_POST` and the printed parameters as body, no custom request, and the printed URL |
| `Client.OtherVerbSendsBody` | src/RestClient.php:261-264 | another verb except GET is a custom request with the printed parameters as body |
| `Client.GetSendsQuery` | src/RestClient.php:265-268 | a GET sends no body; non-empty parameters are merged into the URL's query |
| `Client.GetWithTextFails` | src/RestClient.php:265 | a GET with string parameters raises in `count` |
| `Client.BodyOrQuery` | src/RestClient.php:257-266 | a body is sent exactly when the verb is not GET, and then the URL is untouched |
| `Client.CurlOptionsWin` | src/RestClient.php:269-273 | a `curl_options` entry replaces what `__invoke` set for its key; other keys keep it |
| `Client.ArrayMergeMovesOptions` | src/RestClient.php:269 | `array_merge` would renumber the cURL option keys, which is why they are assigned one by one |
| `Client.AsWrittenSendsValues` | src/RestClient.php:256 | as written, cURL receives only the header values, not the names |
| `Client.HeaderLinesSent` | src/RestClient.php:255-256 | corrected, cURL receives one `Name: value` line per field |
| `Client.CorrectedSendsLines` | src/RestClient.php:249-268 | corrected, the options carry one `Name: value` line per field when there are headers and none otherwise, and agree with the options as written on every other key |
| `Client.JsonPostHeader` | tests/BackwardsCompatibilityTest.php:124-138 | the JSON POST test's header goes out as the bare line `application/json` as written, and as `Content-Type: application/json` corrected |
| `Client.RegisteredDecoderFound` | src/RestClient.php:161-180 | after `register_decoder`, `get_decoder` returns that decoder if it is a function name that is not empty; an empty name raises `OutOfBounds`, and a closure raises an engine `Error` when the debug message interpolates it |
| `Client.ClosureDecoderFails` | src/RestClient.php:172-174 | as written, a registered closure is never returned: `get_decoder` raises |
| `Client.CorrectedDecoderFound` | src/RestClient.php:161-180 | corrected, `get_decoder` returns the decoder registered last, closure or name, unless it is an empty name |
| `Client.DecoderLookupsAgree` | src/RestClient.php:172-180 | the lookups as written and as meant differ exactly when the format's decoder is a closure |
| `Client.RegisterKeepsOthers` | src/RestClient.php:161-163 | registering one format does not change the decoder for another |
| `Client.StandardFormats` | src/RestClient.php:59-63 | `json` finds `json_decode`; `xml` has no decoder |
| `Client.CallVerbMembership` | src/RestClient.php:192-195 | a method name is accepted exactly when its upper case is an allowed verb, and then resolves to it |
| `Client.CallVerbCaseInsensitive` | src/RestClient.php:193 | method names are matched without regard to case |
| `Client.OptionKeyExact` | src/RestClient.php:149-150 | `set_option` accepts exactly the seven option keys |
| `RestClients.CallUpperCases` | src/RestClient.php:216-217 | `execute` upper-cases the verb, so `post` and `POST` send the same request |
| `RestClients.CallTextVerbatim` | src/RestClient.php:220-228 | string parameters are sent as they are, whatever the client's parameters hold |
| `RestClients.CallParamsMerged` | src/RestClient.php:223-226 | array parameters are merged recursively onto the client's, with its flags |
| `RestClients.CallHeadersWin` | src/RestClient.php:230-232 | a call's header field overrides the client's of the same name |
| `RestClients.EmptyCallUrl` | src/RestClient.php:218 | without a call URL the request goes to the base URL with its path and query dropped |
| `RestClients.RestClient.Make` | src/RestClient.php:78-128 | fails when the base URL text does not parse or the parameters fail. Otherwise: named arguments override class defaults (an options array overrides both), a fresh base resource, and the defaults merged with the given headers and parameters |
| `RestClients.RestClient.MakeBase` | src/RestClient.php:100-106 | a given resource is kept; otherwise the base text is parsed into a fresh resource, or the parse error is raised |
| `RestClients.RestClient.MakeHeaders` | src/RestClient.php:108-114 | the default fields, merged with the argument's when it is truthy |
| `RestClients.RestClient.MakeParams` | src/RestClient.php:116-123 | the default parameters with the client's `INDEXES`, merged recursively with the argument's when truthy |
| `RestClients.RestClient.SetOption` | src/RestClient.php:147-152 | an unknown key raises `OutOfBounds` and a value of the wrong type raises `TypeError`, both changing nothing; otherwise exactly the named field takes the value |
| `RestClients.RestClient.RegisterDecoder` | src/RestClient.php:161-163 | the format's decoder is set and nothing else changes |
| `RestClients.RestClient.Invoke` | src/RestClient.php:248-285 | the response holds the reply to the options built, parsed and decoded by the format's decoder; or the first error raised; a GET's URL object gets the parameters merged into its query |
| `RestClients.RestClient.BuildOptions` | src/RestClient.php:249-268 | the options are the reference plan, with the header field array as written, and the URL object is updated as that plan says |
| `RestClients.RestClient.LayOptions` | src/RestClient.php:269-273 | the loop assigns every `curl_options` entry over the options |
| `RestClients.RestClient.Receive` | src/RestClient.php:276-284 | the new response holds the reply parsed and decoded, or the error of the parse or of `get_decoder` |
| `RestClients.RestClient.Execute` | src/RestClient.php:216-241 | the request sent is the reference call plan, and the answer is as `Invoke` states |
| `RestClients.RestClient.Prepare` | src/RestClient.php:216-238 | the request built holds the plan's verb, URL, parameters and headers, or the plan's error |
| `RestClients.RestClient.PrepareUrl` | src/RestClient.php:218 | the base resource merged with the resource of the call URL (empty when null) |
| `RestClients.RestClient.PrepareBody` | src/RestClient.php:223-228 | an array is merged onto the client's parameters object, a string taken as it is |
| `RestClients.RestClient.PrepareHeaders` | src/RestClient.php:230-232 | the client's headers object merged with the call's fields |
| `RestClients.RestClient.Call` | src/RestClient.php:192-202 | an unknown verb raises `BadMethodCall`; otherwise `execute` with the upper-case verb |
| `LegacyQuery.ListQuery` | restclient.php:209 | `http_build_query` writes a list of strings with indexes |
| `LegacyQuery.UnindexList` | restclient.php:214-216 | the index-stripping replacement turns the indexed pairs into `%5B%5D` pairs |
| `LegacyQuery.UnindexNoEquals` | restclient.php:215-216 | text without `=` is left alone by the replacement |
| `LegacyQuery.UnindexPair` | restclient.php:215-216 | `k%5Bdigits%5D=v` becomes `k%5B%5D=v` |
| `LegacyQuery.ClientsAgreeOnLists` | restclient.php:207-216 | for a list of strings, version 1 without indexes prints what version 2 prints |
| `LegacyQuery.FirstIndex` | restclient.php:230 | `strpos`: none exactly when the character is missing, otherwise the position of its first occurrence |
| `LegacyQuery.SeparatorsAgree` | restclient.php:230 | the separator as written and as intended agree except on a URL starting with `?` |
| `LegacyQuery.QueryOnlyUrl` | restclient.php:230 | as written, a URL starting with `?` gets a second `?` |
| `LegacyQuery.QueryOnlyExample` | restclient.php:229-231 | as written, `?x=1` with the query `y=2` becomes `?x=1?y=2`, and a GET requests that URL |
| `LegacyQuery.AppendQueriesAgree` | restclient.php:229-231 | appending as written gives the intended URL exactly when the URL does not start with `?` |
| `LegacyQuery.RequestUrlsAgree` | restclient.php:200-238 | the URL requested as written is the intended one unless a GET appends a query to a URL starting with `?` |
| `LegacyQuery.AppendQueryOneMark` | restclient.php:229-231 | corrected, appending a query never adds a second `?` |
| `LegacyQuery.BaseJoin` | restclient.php:234-238 | with a base URL the result is the base then the URL, with a `/` inserted exactly when neither supplies one |
| `LegacyQuery.NoBase` | restclient.php:234 | without a truthy base URL the URL is used as it is |
| `LegacyClient.LegacyRestClient.constructor` | restclient.php:71-93 | the options are the defaults overlaid with the given ones; given decoders are merged onto the default decoders |
| `LegacyClient.LegacyRestClient.Clone` | restclient.php:178 | a copy of every field |
| `LegacyClient.LegacyRestClient.SetOption` | restclient.php:95-97 | the one option is set and nothing else changes |
| `LegacyClient.LegacyRestClient.RegisterDecoder` | restclient.php:99-103 | the format's decoder is set and nothing else changes |
| `LegacyClient.LegacyRestClient.ParseResponse` | restclient.php:269-299 | the do-while loop computes the reference parse, as status lines, gathered header fields and body |
| `LegacyClient.LegacyRestClient.DecodeResponse` | restclient.php:319-331 | the reference decode: a non-empty cached value is returned as it is; otherwise the format's decoder run on the body, cached, or the error raised |
| `LegacyClient.LegacyRestClient.OffsetSet` | restclient.php:144-146 | assigning into the decoded data raises |
| `LegacyClient.LegacyRestClient.OffsetUnset` | restclient.php:148-150 | unsetting decoded data raises |
| `LegacyClient.LegacyRestClient.Execute` | restclient.php:177-255 | returns a fresh clone with the composed URL, holding what the transfer of the composed options gave back, parsed |
| `LegacyClient.LegacyRestClient.Receive` | restclient.php:248-250 | the client holds the parse of the transfer's raw text, its status code and its error, with options, URL and decoders unchanged |
| `LegacyClient.Compose` | restclient.php:181-246 | the cURL options and the URL `execute` composes equal the reference ones |
| `LegacyClient.StartOptions` | restclient.php:181-189 | the fixed options, with credentials when both user name and password are truthy |
| `LegacyClient.HeaderLines` | restclient.php:191-199 | the nested loop yields the reference header lines |
| `LegacyClient.ValueLines` | restclient.php:195-197 | one `name:value` line per value of an entry |
| `LegacyClient.QueryString` | restclient.php:207-219 | the parameters string: the merged array built and de-indexed, or a string as it is |
| `LegacyClient.ComposeUrl` | restclient.php:201-238 | the format suffix, then the query for a GET after the separator as written, then the base URL |
| `LegacyClient.LayOptions` | restclient.php:241-246 | every `curl_options` entry assigned over the options |
| `LegacyClient.LegacyPreludeSteps` | restclient.php:274-281 | before any header, blank lines are skipped and status lines kept trimmed, in order |
| `LegacyClient.LegacyBlankSkipped` | restclient.php:274-277 | a blank line before any header is skipped |
| `LegacyClient.LegacyStatusKept` | restclient.php:278-281 | a line starting with `HTTP` is kept trimmed |
| `LegacyClient.LegacyFieldStep` | restclient.php:282-294 | a field line adds its trimmed value under the folded name |
| `LegacyClient.LegacyFieldSteps` | restclient.php:282-295 | field lines are gathered in order |
| `LegacyClient.LegacyParseMessage` | restclient.php:269-298 | a message parses to its status lines, its fields gathered by folded name, and the body |
| `LegacyClient.LegacyBlankEnds` | restclient.php:274-276 | a blank line after headers ends them; the rest is the body |
| `LegacyClient.LegacyStatusOnly` | RestClientTest.php:176-187 | status lines only: those lines, no fields and no body |
| `LegacyClient.CollectGet` | restclient.php:288-293 | a name's gathered value is its values in order, added onto what it held |
| `LegacyClient.GatheredTruthy` | restclient.php:288-293 | truthy values gather to nothing, one string, or the list of all of them |
| `LegacyClient.FalsyReplaced` | restclient.php:288-289 | a falsy value is replaced by the next one, not listed |
| `LegacyClient.RepeatedNames` | RestClientTest.php:145-158 | a repeated header name holds the list of its values in order; a single one holds the string |
| `LegacyClient.HeaderKeyFolds` | restclient.php:285 | names that differ only in ASCII case or in `-` versus `_` share a key |
| `LegacyClient.AssignThenRead` | restclient.php:95-97 | a set option reads back as set |
| `LegacyClient.AssignKeepsOthers` | restclient.php:95-97 | setting one option leaves the others |
| `LegacyClient.AssignAllEntry` | restclient.php:89 | overlaying options: the last given value of a key wins, and an ungiven key keeps its default |
| `LegacyClient.ConstructEntry` | restclient.php:89 | the constructor's options other than `decoders`: the last given value, or the default |
| `LegacyClient.ConstructDecoders` | restclient.php:90-92 | given decoders override the default ones per format, and the others stay |
| `LegacyClient.ConstructNoDecoders` | restclient.php:81-92 | without given decoders, `json` and `php` are the decoders |
| `LegacyClient.FormatPrecedence` | restclient.php:301-317 | a missing response raises; a truthy `format` option wins; otherwise the content type decides |
| `LegacyClient.ContentTypeSubtype` | restclient.php:311-313 | the format is the word after the first `word/word` slash of the content type |
| `LegacyClient.RepeatedContentType` | restclient.php:311-313 | a repeated content-type header is a list, on which matching the format pattern raises a `TypeError` |
| `LegacyClient.DecodeCached` | restclient.php:320 | a non-empty decoded value is returned without decoding again |
| `LegacyClient.DecodeTwice` | restclient.php:319-331 | decoding again gives the same value unless the first gave an empty one |
| `LegacyClient.RegisterThenDecode` | restclient.php:319-327 | after registering a decoder for the response's format, decoding runs it on the body |
| `LegacyClient.UnsupportedRefused` | restclient.php:322-324 | a format with no decoder raises `not a supported format` |
| `LegacyClient.CurlOptionsWin` | restclient.php:241-246 | a `curl_options` entry replaces what `execute` set; other keys keep it |
| `LegacyClient.BodyOrQuery` | restclient.php:221-232 | a body is sent exactly when the verb is not GET; a GET appends a truthy query to the URL after the separator as written |
| `LegacyClient.CredentialsSent` | restclient.php:187-189 | `CURLOPT_USERPWD` is `user:password` exactly when both are truthy |
| `LegacyClient.HeaderLinesSent` | restclient.php:191-199 | `CURLOPT_HTTPHEADER` is set exactly when either side has headers, as the lines of the merged headers, the call's overriding by name |
| `LegacyClient.HeaderLinesCount` | restclient.php:194-198 | one line per header value |
| `ParamAttributes.Selected` | src/RestClient/Attributes/Param.php:42-47 | the first of `int`, `float`, `string` and `array` that is set gives the type and key; none when none is set |
| `ParamAttributes.AllowsCases` | src/RestClient/Attributes/Param.php:61-67 | anything is allowed when `allowed` is unset; in an array by loose membership; otherwise nothing |
| `ParamAttributes.EnumAllowed` | src/RestClient/Attributes/Param.php:50-65 | an enum class allows exactly the values loosely equal to a case value |
| `ParamAttributes.LooseMembership` | src/RestClient/Attributes/Param.php:65 | the string `"1"` passes a list holding the int `1`; an empty list allows nothing |
| `ParamAttributes.Param.constructor` | src/RestClient/Attributes/Param.php:41-53 | the selected type and key, the default, and the allowed values, with an enum class replaced by its case values |

## Left out

- The cURL transfer is a function parameter. Nothing is sent, and `curl_init`, `curl_reset` and `curl_close` are not modelled.
- `wrapInfo` (restclient.php:257-267) and the `info` object: only `http_code` comes back from the transfer.
- Logging (`src/RestClient/Log.php`, the `log::debug` calls) and deprecation notices (`trigger_error`) are left out. The one place where building a log message changes the result is modelled: `get_decoder` interpolates the decoder, which raises for a closure.
- Decoders are opaque:
  - version 2 stores which decoder was applied to which body text;
  - version 1 applies a caller-supplied function to values without objects, so an empty decoded object is not distinguished from other values.
- The iteration and read-access methods are left out: `rewind`, `current`, `key`, `next`, `valid`, `offsetExists`, `offsetGet`, and the `__get` aliases (`parameters`, `response_status_lines`, `format`). They read the decoded data, which is opaque here.
- The verb wrappers `get`, `post`, `put`, `patch`, `delete` and `head` of version 1 are left out. Each is `execute` with a fixed verb.
- `format_regex` is fixed at its default pattern in both versions. A different pattern is not modelled.
- A URL string is modelled for these shapes only:
  - the scheme-only `name://` strings, which the constructor's own pattern catches before `parse_url`;
  - `scheme://host[:port]` with a path, query and fragment;
  - `file:///path`, including a drive letter as in `file:///c:/x`, with no host;
  - relative references: a path, a query and a fragment;
  - references without a scheme whose first `:` comes before any `?` or `#` and is followed by one to five digits and then `/` or the end. `parse_url` reads such a port and then a host from the start of the text. It fails when the port is above 65535 or when the text starts with a single `/`, as in `/page:1`, and both failures are modelled.
  Other shapes give the error `Unmodelled`. These are user info, IPv6 hosts, non-digit ports, `//` network paths with or without a scheme, schemes without `//` (such as `mailto:x` or `host:80`), the host that such a port reference reads when it starts with any character other than `/` (such as `users/1:2`), and text with control characters.
- Typed PHP properties are modelled as typed fields. A type mismatch is modelled only where `set_option` can cause one.
- Version 1 accepts options under any key, but the model keeps only the ten keys the code reads. Unknown keys are left out.
- `preg_match` on an array subject raises a `TypeError` in the model, as PHP 8 does. Earlier PHP versions only warned.
- Strings are Unicode scalar sequences, standing for the UTF-8 byte strings PHP handles. `urlencode` encodes the UTF-8 bytes; everything else works on ASCII.
- Floats and booleans are not modelled: parameter values are strings, ints, null and arrays. PHP would write `true` as `k=1` and `false` as `k=` in version 2, and as `1` and `0` in version 1's `http_build_query`.
- `Parameters.AssignElement`: a pair `name[i]=y` after `name=x` writes to an offset of the string `x` (src/RestClient/Params.php:85). The model gives the error `Unmodelled` there instead of PHP's string-offset assignment; `name[]=y` after `name=x` is modelled and raises.
- `PhpCompare.LooseEq`: strings with a fraction or an exponent, such as `"1.0"` or `"1e0"`, are compared as non-numeric. So `"1.0" == 1` and `"1e0" == "1"` are false here and true in PHP 8, and this reaches the allowed-values check of `Param::is_allowed`. Integer strings beyond 64 bits are compared exactly, where PHP compares them as floats.
- `RestClients.Effective`: a key of the deprecated options array given as null is read as absent, so the named argument is kept. PHP's `extract` would set the argument to null, and the class default would then apply.
- `ParamAttributes.Selected`: the attribute's `key` and `type` are stored together as one optional pair. A constructor given no key leaves both unset.
- `ParamAttributes.Param.constructor`: allowed values are scalars or arrays of scalars, not nested arrays. A backed enum is given by its case values.
- `Client.StandardFormats` covers the registered names only. Which PHP functions exist is not modelled, so a named decoder is returned as it is.

## Findings

The operations model the code as written, so the clients below send and raise what the code does. Each corrected behaviour is a separate definition beside the as-written one, with the intended property proved about it.

| source | as written | input that shows it | evidently intended | confidence | as-written member | corrected member |
|---|---|---|---|---|---|---|
| src/RestClient.php:256 | `CURLOPT_HTTPHEADER` is set to `(array) $request->headers`, the field array itself; cURL reads only its values | headers `['Content-Type' => 'application/json']` (tests/BackwardsCompatibilityTest.php:124-138) send the line `application/json` | one `Name: value` line per field, as the printed `Headers` gives | high, not executed | `Client.AsWrittenSendsValues` | `Client.CorrectedSendsLines` |
| restclient.php:230 | `strpos($url, '?') ? '&' : '?'` treats a `?` at position 0 as absent | URL `?x=1` with GET parameters `y=2` gives `?x=1?y=2` | `&` whenever the URL already holds a `?` | medium, not executed | `LegacyQuery.QueryOnlyExample` | `LegacyQuery.AppendQueryOneMark` |
| src/RestClient.php:174 | the debug message interpolates `{$decoder}`, and a `Closure` cannot be converted to a string | `register_decoder('json', fn($t) => $t)`, which the docblock at src/RestClient.php:158-159 invites, then any JSON response: `get_decoder` raises `Error` | the closure is returned, as a function name is | high, not executed | `Client.ClosureDecoderFails` | `Client.CorrectedDecoderFound` |
