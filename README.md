# TVDb external link — a Dafny model

This project models `TVDbLink`, the value type of the TMDb Swift client that
links a movie or TV series to its page on www.tvdb.com. The failable
initializer `init?(tvdbTitleID: Int?)` does five things in order:

1. It returns no link when the identifier is `nil`.
2. It renders the integer in decimal (`String(_: Int)`).
3. It fills the title template `https://www.tvdb.com/title/<id>/` with that string.
4. It parses the result with Foundation's `URL(string:)` and returns no link if that fails.
5. It stores the same decimal string as `id` and the parsed URL as `url`.

The model has three modules:

- `Wrappers` holds `Option`, which stands for Swift's `T?`.
- `Decimal` models `String(_: Int)` as a recursive function over mathematical integers. Its partner is a decimal parser in the manner of `Int(_: String)`. The module proves that the two are inverse on canonical strings. The input is typed `Int64`, Swift's `Int` on 64-bit platforms.
- `TVDb` holds the link datatype, both URL templates, their common inverse `ExtractID`, and the initializer `TryCreate`. The private helpers `tvdbURL(forTitle:)` and `tvdbURL(forName:)` (lines 70-76) are `TVDb.TitleURL` and `TVDb.NameURL`: each passes its filled template to the parser. Their properties are stated by the template lemmas in the table below.

`URL(string:)` is library code that is not part of this model. Every member that needs it takes a parameter `parse: string -> Option<U>`, a total function giving an optional URL of any type `U`. The contracts hold for every such parser. Because a Dafny function is deterministic, equal inputs give equal links and equal URL strings.

The private memberwise initializer `init(id:url:)` (lines 61-64) is the datatype constructor `TVDb.TVDbLink(id, url)`. So it stores exactly its two arguments, and the value has no other state.

The doc comments at lines 22-45 of `TVDbLink.swift` speak of IMDb. The code builds TVDb links, and the model follows the code.

## Model

| member | source | states |
|---|---|---|
| `Decimal.NatToDecimal` | Sources/TMDb/Domain/Models/TVDbLink.swift:49 | The decimal digits of a natural number: never empty, only ASCII digits, no leading zero, and equal to "0" exactly when the number is 0 |
| `Decimal.IntToDecimal` | Sources/TMDb/Domain/Models/TVDbLink.swift:54 | `String(n)` is a canonical decimal string, and it starts with `-` exactly when `n` is negative |
| `Decimal.DecimalRoundTrip` | Sources/TMDb/Domain/Models/TVDbLink.swift:54 | Parsing the rendering of any integer gives back that integer |
| `Decimal.CanonicalDecimalRoundTrip` | Sources/TMDb/Domain/Models/TVDbLink.swift:54 | Every canonical decimal string parses, and rendering its value gives back the same string |
| `Decimal.IntToDecimalCharacterization` | Sources/TMDb/Domain/Models/TVDbLink.swift:54 | `String(n) == s` holds exactly when `s` is canonical and parses as `n` (both directions) |
| `Decimal.IntToDecimalInjective` | Sources/TMDb/Domain/Models/TVDbLink.swift:49 | Distinct integers render to distinct strings |
| `Decimal.Int64DecimalLength` | Sources/TMDb/Domain/Models/TVDbLink.swift:46 | A 64-bit `Int` renders to at most 20 characters |
| `TVDb.ExtractID` | Sources/TMDb/Domain/Models/TVDbLink.swift:71 | Whatever identifier it takes out of a string, filling the template with it rebuilds that string |
| `TVDb.InterpolateRoundTrip` | Sources/TMDb/Domain/Models/TVDbLink.swift:70-76 | Taking the identifier out of a filled template gives back the identifier |
| `TVDb.InterpolateInjective` | Sources/TMDb/Domain/Models/TVDbLink.swift:70-76 | A template filled with different identifiers gives different strings |
| `TVDb.TitleAndNameTemplatesDiffer` | Sources/TMDb/Domain/Models/TVDbLink.swift:71-75 | No title URL string equals any name URL string, and neither template's inverse accepts the other's strings |
| `TVDb.TitleURLStringInjective` | Sources/TMDb/Domain/Models/TVDbLink.swift:49-71 | Distinct integer identifiers give distinct title URL strings |
| `TVDb.TryCreate` | Sources/TMDb/Domain/Models/TVDbLink.swift:46-55 | `nil` gives no link. Otherwise a link exists exactly when the filled title template parses. Its `id` is `String(n)`, canonical and parsing back to `n`. Its `url` is the parse of the title template filled with that same `id`. |
| `TVDb.NilGivesNoLink` | Sources/TMDb/Domain/Models/TVDbLink.swift:46-52 | A `nil` identifier gives no link for every URL parser |
| `TVDb.UnparsedURLGivesNoLink` | Sources/TMDb/Domain/Models/TVDbLink.swift:47-52 | When the URL string does not parse, no link is produced |
| `TVDb.TryCreateInjective` | Sources/TMDb/Domain/Models/TVDbLink.swift:46-55 | Links built from distinct identifiers differ in `id` and in their URL string |
| `TVDb.TitleExample` | Sources/TMDb/Domain/Models/TVDbLink.swift:46-55 | Identifier 12345 gives the link with `id` "12345" and the parse of `https://www.tvdb.com/title/12345/` |
| `TVDb.NameExample` | Sources/TMDb/Domain/Models/TVDbLink.swift:74-76 | The name template filled with "abc" is `https://www.tvdb.com/name/abc/` |

## Left out

- Foundation's `URL(string:)` (lines 71 and 75) is library code that is not part of this model. It is a parameter, so nothing is claimed about which strings it accepts or that the URL it returns is absolute. "The url re-parses" is stated only as: `url` is the parser's result for the link's own URL string.
- The `ExternalLink` protocol conformance beyond the two fields `id` and `url`: the protocol's definition is not part of this model.
- Swift `Int` overflow: nothing in the core does arithmetic on the identifier. The input is bounded to the 64-bit range, and the rendering works on unbounded integers.
- `Tests/TMDbIntegrationTests/DiscoverIntegrationTests.swift`: network requests to the live TMDb API, with no logic of the link type.
- `tvdbURL(forName:)` has no initializer behind it in the source. It is modelled only as the template function `TVDb.NameURL` and its template string `TVDb.NameURLString`.
