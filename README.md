# mustache.js template engine, modelled in Dafny

This project models the Mustache template engine vendored as `js/vendor/mustache.mjs` (version
4.0.1). It is split into one module per part of the engine:

- `text.dfy` (`Text`): JavaScript's `\s` character class, `isWhitespace`, `indexOf`, and `split`/`join` on one character.
- `values.dfy` (`JsValues`): the values a view can hold. It defines JavaScript falsiness, `hasProperty`, `primitiveHasOwnProperty` and `String(v)`.
- `escape.dfy` (`Escape`): `escapeHtml` and the entity map.
- `scanner.dfy` (`Scanning`): the `Scanner` class. Its regular expressions are replaced by a `Pattern` datatype (literal delimiter with optional `\s*` around it, or the sigil class).
- `tokens.dfy` (`Tokens`): the token datatype, `squashTokens`, `nestTokens` and the section stack.
- `parser.dfy` (`Parser`): `parseTemplate`, with `stripSpace` and `compileTags`. Each step of its loop is a function on a `ParseState`. The `TemplateParser` class runs the loop, and each of its methods is proved to compute the step function.
- `lines.dfy` (`Lines`): what the per-line flags of `parseTemplate` (`spaces`, `nonSpace`, `hasTag`) mean in terms of the entries pushed since the last newline, and standalone-line stripping stated over those entries.
- `context.dfy` (`Contexts`): the `Context` class, with `push` and `lookup`, and the per-frame cache.
- `render.dfy` (`Rendering`): what `renderTokens` and its helpers produce, as functions of the chain of views.
- `writer.dfy` (`Writers`): the `Writer` class. It holds the template cache, and its render methods are proved to compute the `Rendering` functions.

Errors that the source throws become the `Err` case of a `Result` (`outcomes.dfy`). A view is a value of the `Value` datatype:
- `undefined`, `null`, booleans, integers, strings;
- arrays, and objects as finite maps of own properties;
- functions, as opaque identifiers that a `Host` interprets.

Section bodies are rendered without the `tags` argument, as in the source. A partial inside a section is therefore parsed with the default tags.

Two details of the code that the model keeps:
- The newline is pushed onto `spaces` before `stripSpace` runs (mustache.mjs:167-184), so stripping a standalone line deletes its newline token too.
- A section left open at the end of the template is reported with the name of the innermost open section, the one `sections.pop()` returns (mustache.mjs:269-273).

## Model

| member | source | states |
|---|---|---|
| Text.IndexOf | js/vendor/mustache.mjs:433 | `name.indexOf('.')`: -1 exactly when the character is absent, otherwise the first index holding it |
| Text.SplitOn | js/vendor/mustache.mjs:435 | `split` on one character gives at least one piece, and no piece holds the separator |
| Text.JoinSplit | js/vendor/mustache.mjs:679-686 | joining the pieces of a split gives back the string |
| Text.SplitJoin | js/vendor/mustache.mjs:679-686 | splitting a join of separator-free pieces gives back the pieces |
| Text.SplitSpaces2 | js/vendor/mustache.mjs:140-142 | `split(/\s+/, 2)` yields one piece exactly when the string has no white space, and never more than two; the first piece is everything before the first white space; the second is the word after the first white-space run: non-space characters running up to the next white space or the end |
| Text.SplitWords | js/vendor/mustache.mjs:140-142 | two space-free words around a run of white space split into exactly those two words |
| Text.WsRun | js/vendor/mustache.mjs:77 | what a greedy `\s*` consumes: the longest all-space prefix |
| Text.FirstSpace | js/vendor/mustache.mjs:78 | the first `\s` character, or the end |
| JsValues.Decimal | js/vendor/mustache.mjs:39-46 | the numeral of an index is all digits, with a leading zero only for 0 |
| JsValues.DecimalRoundTrip | js/vendor/mustache.mjs:39-46 | reading back the numeral of a number gives the number |
| JsValues.ArrayIndexOfDecimal | js/vendor/mustache.mjs:39-46 | every index is an own property key of a string or array, through its numeral |
| JsValues.PropertyTests | js/vendor/mustache.mjs:31-46 | for a non-null value, `hasProperty` or `primitiveHasOwnProperty` holds exactly when the key is an own member; never both; for an object, exactly its keys; for a string, `length` and its indices |
| Escape.Entity | js/vendor/mustache.mjs:60-69 | each of the eight special characters maps to an entity `&...;`; every other character maps to itself |
| Escape.EscapeHtml | js/vendor/mustache.mjs:71-75 | the output is no shorter than the input, holds no special character but the `&` of entities, and equals the input when the input has no special character |
| Escape.EscapeHtmlAppend | js/vendor/mustache.mjs:71-75 | escaping distributes over concatenation: characters are replaced one by one, in order |
| Escape.UnescapeEscapeHtml | js/vendor/mustache.mjs:60-75 | decoding the entities of an escaped string gives back the string |
| Scanning.LastFitGreedy | js/vendor/mustache.mjs:148-150 | backtracking of the `\s*` before a delimiter takes the largest split at which the delimiter follows |
| Scanning.SearchFromFirst | js/vendor/mustache.mjs:379 | `search` finds the leftmost match |
| Scanning.OpeningTagMatches | js/vendor/mustache.mjs:148 | the opening-tag pattern matches exactly where the opening delimiter occurs |
| Scanning.SearchAbsent | js/vendor/mustache.mjs:379 | a text without the opening delimiter is searched in vain |
| Scanning.ScanFront | js/vendor/mustache.mjs:359-372 | the matched text and the rest make up the tail |
| Scanning.ScanUntilFront | js/vendor/mustache.mjs:378-398 | the skipped text and the rest make up the tail |
| Scanning.Scanner.constructor | js/vendor/mustache.mjs:342-346 | a fresh scanner has read nothing |
| Scanning.Scanner.Eos | js/vendor/mustache.mjs:351-353 | `eos` holds exactly when the cursor is at the end |
| Scanning.Scanner.Scan | js/vendor/mustache.mjs:359-372 | keeps `string == read + tail`; a match advances `pos` by its length; no match returns "" and changes nothing |
| Scanning.Scanner.ScanUntil | js/vendor/mustache.mjs:378-398 | keeps `string == read + tail`, advances `pos` by what it returns; with no match it consumes the whole tail, after which `eos` holds |
| Tokens.OpenStack | js/vendor/mustache.mjs:225-246 | the stack of open sections holds section tokens of the list |
| Tokens.OpenStackPrefix | js/vendor/mustache.mjs:233-246 | a list whose close tags all match has matching close tags on every prefix |
| Tokens.SquashedShape | js/vendor/mustache.mjs:282-301 | `squashTokens` skips deleted entries and leaves no two text tokens side by side; it keeps the characters of the texts and every other token in order, the section structure, the first start offset and the last end offset |
| Tokens.SquashTokens | js/vendor/mustache.mjs:282-301 | the loop computes `Squashed` |
| Tokens.NestFold | js/vendor/mustache.mjs:309-336 | the `sections` stack of `nestTokens` mirrors the stack of open sections |
| Tokens.NestTokens | js/vendor/mustache.mjs:309-336 | the loop with its `collector` computes `Nested` |
| Tokens.NestedFlattens | js/vendor/mustache.mjs:309-336 | writing each section of the tree as open tag, body and a close tag at its recorded close offset gives back the token list: every section holds exactly the tokens up to its matching close tag, and close tags are dropped from the tree |
| Parser.CompileTags | js/vendor/mustache.mjs:139-151 | an array is accepted exactly when it has two items, which become the delimiters; a string exactly when it contains white space, and then its two pieces of `split(/\s+/, 2)` become the delimiters; anything else is `Invalid tags` |
| Parser.CompileTagText | js/vendor/mustache.mjs:139-151 | a string of two space-free delimiters around white space, such as `"<% %>"`, compiles to exactly those two delimiters |
| Parser.DeleteAll | js/vendor/mustache.mjs:127-129 | deletes exactly the entries the `spaces` list names |
| Parser.Stripped | js/vendor/mustache.mjs:125-136 | `stripSpace` deletes the line's white-space entries only on a line with a tag and no non-space content, then resets the line flags |
| Parser.KindOf | js/vendor/mustache.mjs:198 | no sigil means a plain name; `{` is recognised |
| Parser.MakeToken | js/vendor/mustache.mjs:220 | the token carries the tag's value and offsets and has no body yet |
| Parser.TagBody | js/vendor/mustache.mjs:202-213 | reading a tag value only moves the scanner forward |
| Parser.Pushed | js/vendor/mustache.mjs:220-223 | pushing a tag's token takes one step of the section stack |
| Parser.Switched | js/vendor/mustache.mjs:225-263 | the dispatch after a tag keeps the loop invariant |
| Parser.Recorded | js/vendor/mustache.mjs:220-263 | recording a tag keeps the loop invariant |
| Parser.TagRead | js/vendor/mustache.mjs:195-263 | reading a tag keeps the loop invariant and moves the scanner forward |
| Parser.TextPhase | js/vendor/mustache.mjs:159-193 | the text before the next tag keeps the invariant; reaching a tag consumes input |
| Parser.Finished | js/vendor/mustache.mjs:266-275 | the end of the parse fails exactly when sections are left open, naming the innermost one at the final position |
| Parser.RecordedFails | js/vendor/mustache.mjs:225-261 | a tag fails to record exactly for a close tag with no open section (`Unopened section`), a close tag naming another section (`Unclosed section` with the open one's name), or unusable new delimiters |
| Parser.TagReadFails | js/vendor/mustache.mjs:195-261 | in addition, a tag without its closing delimiter fails with `Unclosed tag` at the scanner's position |
| Parser.WithTextUntagged | js/vendor/mustache.mjs:164-188 | before the first tag of a line the text loop only appends one text token per character |
| Parser.SquashedChars | js/vendor/mustache.mjs:282-301 | `squashTokens` merges the character tokens of a text back into one token |
| Parser.TagFree | js/vendor/mustache.mjs:109-276 | a template without the opening delimiter parses to one text token holding the whole template |
| Parser.TemplateParser.StripSpace | js/vendor/mustache.mjs:125-136 | computes `Stripped` |
| Parser.TemplateParser.AddChar | js/vendor/mustache.mjs:165-186 | one iteration of the text loop |
| Parser.TemplateParser.ReadBody | js/vendor/mustache.mjs:202-213 | reads the tag value as `TagBody` says |
| Parser.TemplateParser.ReadEquals | js/vendor/mustache.mjs:202-205 | a `=` tag's value runs up to the next `=`; the scanner then steps past it and up to the closing tag |
| Parser.TemplateParser.ReadCurly | js/vendor/mustache.mjs:206-210 | a `{` tag's value runs up to the closing brace; the scanner then steps past the brace and up to the closing tag |
| Parser.TemplateParser.ReadTag | js/vendor/mustache.mjs:195-263 | reads a tag as `TagRead` says |
| Parser.TemplateParser.ReadText | js/vendor/mustache.mjs:159-193 | reads the text before a tag as `TextPhase` says |
| Parser.TemplateParser.Run | js/vendor/mustache.mjs:158-275 | the main loop and the final checks compute `ParsedFrom` |
| Parser.ParseTemplate | js/vendor/mustache.mjs:109-276 | computes `Parsed`; an empty template is an empty tree; absent tags or an empty string (falsy) select the default tags |
| Lines.StartLine | js/vendor/mustache.mjs:114-121 | the parse starts on an empty line with the flags cleared, so the flags describe it |
| Lines.AppendedLine | js/vendor/mustache.mjs:167-177 | a character's text entry joins the current line: a white-space one is listed in `spaces`, any other one makes the line hold content |
| Lines.LineStripped | js/vendor/mustache.mjs:125-136 | `stripSpace` leaves the earlier lines alone and deletes the current line's white-space text entries exactly when the line holds a tag and no non-space text or variable; every other entry stays |
| Lines.LineEnd | js/vendor/mustache.mjs:165-186 | at a newline: on a standalone line (a tag, and no non-space text or variable) every white-space text entry of the line, the newline's own included, is deleted; on any other line none is; earlier lines are untouched; the next line starts empty, with the flags describing it |
| Lines.WithCharLine | js/vendor/mustache.mjs:165-186 | one character of text keeps the flags describing the current line, which a newline ends |
| Lines.WithTextLine | js/vendor/mustache.mjs:164-188 | the text loop keeps the flags describing the line it ends on |
| Lines.TextPhaseLine | js/vendor/mustache.mjs:158-195 | the text before a tag keeps the flags meaningful; reaching an opening delimiter sets `hasTag` for the tag being read |
| Lines.SwitchedLine | js/vendor/mustache.mjs:225-263 | the dispatch after a tag changes neither the entries nor `spaces` nor `hasTag`, and sets `nonSpace` exactly for a variable |
| Lines.PushedLine | js/vendor/mustache.mjs:220-223 | pushing a tag's token: the line now holds a tag, and holds content exactly when it did or the tag is a variable |
| Lines.RecordedLine | js/vendor/mustache.mjs:220-263 | recording a tag leaves `hasTag`, `nonSpace` and `spaces` describing the line, which now holds that tag |
| Lines.TagReadLine | js/vendor/mustache.mjs:195-263 | reading a tag keeps the flags describing the line |
| Lines.TurnLine | js/vendor/mustache.mjs:158-263 | a whole turn of the main loop keeps the flags describing the current line, so every line the parser ends is stripped as `LineEnd` and `LineStripped` say |
| Contexts.Descend | js/vendor/mustache.mjs:455-464 | a dotted descent only hits from a non-null value |
| Contexts.FrameHit | js/vendor/mustache.mjs:433-488 | a plain name fails exactly on a null or undefined view; otherwise it hits exactly when `hasProperty` holds, with the property's value |
| Contexts.LookupIn | js/vendor/mustache.mjs:422-506 | the only error of `lookup` is a plain name reaching a null view |
| Contexts.ResolveFirstHit | js/vendor/mustache.mjs:432-496 | the first frame that hits gives the value |
| Contexts.ResolveMiss | js/vendor/mustache.mjs:432-498 | when no frame hits the value is `undefined` |
| Contexts.PlainNameSkipsPrimitive | js/vendor/mustache.mjs:466-487 | a plain name does not hit a string's own `length`; the lookup goes on to the parent |
| Contexts.DottedPathReachesPrimitive | js/vendor/mustache.mjs:455-461 | a dotted path does hit a string's own `length` |
| Contexts.Context.constructor | js/vendor/mustache.mjs:404-408 | the cache starts out holding `.` as the view |
| Contexts.Context.Push | js/vendor/mustache.mjs:414-416 | a new innermost frame whose chain is the view followed by this chain |
| Contexts.Context.Lookup | js/vendor/mustache.mjs:422-506 | the result is the resolution along the chain (`.` is the view), with a function value called on this frame's view; the resolved value is cached in this frame only, so every cache entry stays equal to the resolution |
| Contexts.FrameValue | js/vendor/mustache.mjs:433-488 | the per-frame step of the walk, with its dotted descent loop, computes `FrameHit` |
| Rendering.Slice | js/vendor/mustache.mjs:651 | `slice` within bounds is the substring |
| Rendering.SpacesAndTabs | js/vendor/mustache.mjs:678 | the filtered indentation holds only spaces and tabs; a string of spaces and tabs is kept whole, and any other single character is dropped |
| Rendering.SpacesAndTabsAppend | js/vendor/mustache.mjs:678 | filtering distributes over concatenation, so the spaces and tabs are kept in their order and every other character is dropped |
| Rendering.IndentPartial | js/vendor/mustache.mjs:677-687 | the line count stays the same; exactly the non-empty lines are prefixed with the filtered indentation, line 0 only when the tag's line had no other content |
| Rendering.IndentNothing | js/vendor/mustache.mjs:677-687 | an indentation without spaces or tabs leaves the partial unchanged |
| Rendering.PartialSource | js/vendor/mustache.mjs:689-703 | a partial is found exactly when one is named so; it is indented only when its tag is the first on its line and has indentation |
| Rendering.PartialMissing | js/vendor/mustache.mjs:689-706 | without partials, or without one of that name, a partial tag renders nothing |
| Rendering.EscapedValue | js/vendor/mustache.mjs:715-720 | fails exactly when the lookup fails; null or undefined renders nothing; with the HTML escaper the output holds no markup character |
| Rendering.UnescapedValue | js/vendor/mustache.mjs:708-713 | succeeds exactly when the lookup does; null or undefined renders nothing; any other value renders as its string |
| Rendering.EscapedRoundTrip | js/vendor/mustache.mjs:715-720 | decoding the escaped output of a variable gives the value's text |
| Rendering.RenderTokensAppend | js/vendor/mustache.mjs:584-626 | the output of a token list is the output of its first part followed by that of the rest; the first error stops it |
| Rendering.RenderEachCons | js/vendor/mustache.mjs:640-643 | an array renders the body for its first element under a pushed frame, then the rest, in order |
| Rendering.RenderTokensPrefix | js/vendor/mustache.mjs:584-626 | rendering one more token of the list appends that token's output to the output so far; an error in the prefix is the error of the longer prefix |
| Rendering.RenderEachPrefix | js/vendor/mustache.mjs:640-643 | rendering the body for one more array element appends that element's output; an earlier error is kept |
| Rendering.SectionOnValue | js/vendor/mustache.mjs:628-665 | a falsy value renders nothing; an array renders the body per element in order; an object, string or number renders the body once under one pushed frame |
| Rendering.SectionComplement | js/vendor/mustache.mjs:628-675 | the inverted section renders its body exactly when the value is falsy or an empty array, and the section then renders nothing |
| Rendering.RenderedTagFree | js/vendor/mustache.mjs:109-276 | a template without the opening delimiter renders as itself |
| Writers.Writer.constructor | js/vendor/mustache.mjs:513-526 | a new writer has an empty cache |
| Writers.Writer.ClearCache | js/vendor/mustache.mjs:531-535 | the cache is empty afterwards |
| Rendering.TagsStringParse | js/vendor/mustache.mjs:544 | an empty string for `tags` is falsy and parses with the default tags; any other string fails at `tags.join` |
| Writers.Writer.Parse | js/vendor/mustache.mjs:542-554 | the result is always the parse of the template with the given tags (the defaults for absent or empty-string tags); a successful parse is cached under the template and the tags, so every entry stays equal to its parse |
| Writers.Writer.Render | js/vendor/mustache.mjs:569-573 | parsing and rendering under a new context computes `Rendered` |
| Writers.Writer.RenderTokens | js/vendor/mustache.mjs:584-626 | the loop computes `RenderTokens`, whatever the caches hold |
| Writers.Writer.RenderToken | js/vendor/mustache.mjs:590-620 | the dispatch on the token type computes `RenderToken` |
| Writers.Writer.RenderSection | js/vendor/mustache.mjs:628-665 | computes `RenderSection` |
| Writers.Writer.RenderItems | js/vendor/mustache.mjs:640-643 | the loop over an array computes `RenderEach` |
| Writers.Writer.RenderInverted | js/vendor/mustache.mjs:667-675 | computes `RenderInverted` |
| Writers.Writer.RenderPartial | js/vendor/mustache.mjs:689-706 | computes `RenderPartial` |
| Writers.Writer.RenderParsed | js/vendor/mustache.mjs:702-703 | the parsed partial renders one level deeper under the same context; a parse error is the result |
| Writers.Writer.EscapedValue | js/vendor/mustache.mjs:715-720 | computes `EscapedValue` |
| Writers.Writer.UnescapedValue | js/vendor/mustache.mjs:708-713 | computes `UnescapedValue` |
| Writers.JoinedKey | js/vendor/mustache.mjs:544 | the key starts with the template followed by a colon |
| Writers.ParseJoined | js/vendor/mustache.mjs:542-554 | the cache keyed by the joined string: a successful parse is filed under its key |
| Writers.JoinedKeyServesStale | js/vendor/mustache.mjs:544-549 | two different template and tag pairs share a joined key, so the second parse is served the first template's tree |
| Writers.FirstParseFiles | js/vendor/mustache.mjs:542-554 | on an empty cache, parsing `"a:b"` with tags `c`, `d` yields its one text token and files it under `"a:b:c:d"` |
| Writers.SecondParseHits | js/vendor/mustache.mjs:544-549 | once `"a:b:c:d"` is cached, parsing `"a"` with tags `b:c`, `d` returns the cached tree and leaves the cache unchanged |

## Left out

- Regular expressions are not modelled in general. Only the patterns the parser uses are modelled: a literal delimiter with optional `\s*` around it, the `\s*=` and `\s*}` patterns, and the sigil class `[!#&/=>^{]`.
- Functions in a view are opaque: a `Host` says what calling one returns. The `subRender` callback handed to a higher-order section is not modelled.
- The check that `originalTemplate` is a string before a higher-order section is not modelled, because the original template is always a string here.
- Property lookup covers own members only: object keys, and the `length` and indices of arrays and strings. The prototype chain, including inherited keys seen by `in`, is not modelled.
- Numbers are integers. NaN, floating point and `String` of non-integers are not modelled.
- A view that is already a `Context` (`view instanceof Context` in `render`) is not modelled; `render` always builds a new context.
- Partial expansion is bounded by the writer's `partialDepth`. Past it, rendering fails with `StackExhausted`, where JavaScript would eventually overflow its stack.
- The global `mustache` object, `defaultWriter`, a replaceable `templateCache` and the swappable `mustache.escape` are not modelled. One `Writer` is given an explicit escaper (the HTML escaper, or an opaque function).
- `partials` given as a function returning a non-string, non-null value is not modelled; a loader returns an optional string.
- Strings are sequences of Unicode scalar values, not of UTF-16 code units. A character outside the Basic Multilingual Plane is one character here and two in JavaScript. So `length`, index keys, token offsets, the text loop's one token per character, and the partial indentation built for text before a partial tag all count it once where JavaScript counts it twice.
- Writers.JoinedKey: states only the shape of the key's front, because the point of the model is the collision that `JoinedKeyServesStale` exhibits.

## Findings

| source | as written | input that shows it | evidently intended | confidence | as-written member | corrected member |
|---|---|---|---|---|---|---|
| js/vendor/mustache.mjs:544 | the cache key is `template + ':' + tags.join(':')`, which is not injective | template `"a:b"` with tags `["c", "d"]`, then template `"a"` with tags `["b:c", "d"]`: both keys are `"a:b:c:d"`, so the second `parse` returns the tree of `"a:b"` | a cached parse is always the parse of the template with the tags given | not executed | Writers.JoinedKeyServesStale | Writers.Writer.Parse |
