# Cantata ultimate-lyrics provider descriptor, in Dafny

Cantata fetches song lyrics from web sites. Each site is described by an
`UltimateLyricsProvider`: its name, URL template, character set, relevance
rank, an enabled flag, URL-format overrides (replace/with pairs), ordered
lists of extract and exclude rules (each rule a list of begin/end marker
pairs), and a list of strings whose presence marks a page as "no lyrics".
The header fills these in through inline setters and `add*` appenders and
reads three of them back through getters; which code makes those calls is
not part of this model. A static flag, `debugEnabled`, starts false and is
switched on by `enableDebug`; the code that reads it is not part of this
model either.

This project models that descriptor and proves what its inline members
promise.

- `provider_spec.dfy`, module `ProviderSpec`: the configuration as a value
  (`Config`), one mutator call as a value (`Op`), the effect of one call
  (`Step`) and of a sequence of calls (`Apply`). The lemmas cover the
  setter/getter round trip and frame conditions for single calls. For call
  sequences they cover: order of appends, last setter wins, and fields no
  call targets stay unchanged.
- `provider.dfy`, module `UltimateLyrics`: the class
  `UltimateLyricsProvider` with the header's fields. Each setter and
  appender updates its field in place and is proved to agree with `Step`.
  The getters are `reads this` functions. The static debug flag is a
  `DebugSwitch` object. The placeholder strings and the leading article
  `"The "` are kept as named constants.

Every setter and appender in the header is public and may be called at any
time; the model allows any call in any order.

## Model

| member | source | states |
|---|---|---|
| `UltimateLyrics.UltimateLyricsProvider.constructor` | context/ultimatelyricsprovider.h:106-113 | a new provider's name, URL, charset and all four lists are empty (Qt default construction) |
| `UltimateLyrics.UltimateLyricsProvider.SetName` | context/ultimatelyricsprovider.h:50 | afterwards `GetName()` (line 58) returns `n`; the whole state is `Step(old, SetName(n))`; every other field is unchanged |
| `UltimateLyrics.UltimateLyricsProvider.GetName` | context/ultimatelyricsprovider.h:58 | returns the stored `name`; the round trip with `SetName` is in `SetName`'s `ensures` |
| `UltimateLyrics.UltimateLyricsProvider.GetRelevance` | context/ultimatelyricsprovider.h:60 | returns the stored `relevance`; the round trip with `SetRelevance` is in `SetRelevance`'s `ensures` |
| `UltimateLyrics.UltimateLyricsProvider.IsEnabled` | context/ultimatelyricsprovider.h:62 | returns the stored `enabled` flag; the round trip with `SetEnabled` is in `SetEnabled`'s `ensures` |
| `UltimateLyrics.UltimateLyricsProvider.SetUrl` | context/ultimatelyricsprovider.h:51 | `url` becomes `u` and every other field and list is unchanged |
| `UltimateLyrics.UltimateLyricsProvider.SetCharset` | context/ultimatelyricsprovider.h:52 | `charset` becomes `c` and every other field and list is unchanged |
| `UltimateLyrics.UltimateLyricsProvider.SetRelevance` | context/ultimatelyricsprovider.h:53 | afterwards `GetRelevance()` (line 60) returns `r`, a 32-bit int; every other field is unchanged |
| `UltimateLyrics.UltimateLyricsProvider.SetEnabled` | context/ultimatelyricsprovider.h:63 | afterwards `IsEnabled()` (line 62) returns `e`; every other field is unchanged; when the flag already was `e` the state is unchanged, so a repeated call does nothing |
| `UltimateLyrics.UltimateLyricsProvider.AddUrlFormat` | context/ultimatelyricsprovider.h:54 | `urlFormats` becomes the old list followed by `(replace, with)`; every other field is unchanged |
| `UltimateLyrics.UltimateLyricsProvider.AddExtractRule` | context/ultimatelyricsprovider.h:55 | `extractRules` becomes the old list followed by `rule`; `excludeRules` and every other field are unchanged |
| `UltimateLyrics.UltimateLyricsProvider.AddExcludeRule` | context/ultimatelyricsprovider.h:56 | `excludeRules` becomes the old list followed by `rule`; `extractRules` and every other field are unchanged |
| `UltimateLyrics.UltimateLyricsProvider.AddInvalidIndicator` | context/ultimatelyricsprovider.h:57 | `invalidIndicators` becomes the old list followed by `[indicator]`; every other field is unchanged |
| `UltimateLyrics.DebugSwitch.constructor` | context/ultimatelyricsprovider.h:86 | the debug flag starts false |
| `UltimateLyrics.DebugSwitch.EnableDebug` | context/ultimatelyricsprovider.h:41 | the flag is true afterwards whatever it was before; if it was already true the object is unchanged (idempotent) |
| `ProviderSpec.StepFrame` | context/ultimatelyricsprovider.h:50-63 | every mutator call leaves all fields except the one it targets unchanged |
| `ProviderSpec.StepReflects` | context/ultimatelyricsprovider.h:50-63 | after any call its argument reads back: a setter's field equals the argument, an appender's list ends with the argument |
| `ProviderSpec.StepShape` | context/ultimatelyricsprovider.h:50-63 | repeating a setter call changes nothing; an appender grows its list by exactly one and keeps the old list as a prefix |
| `ProviderSpec.StepsCommute` | context/ultimatelyricsprovider.h:50-63 | two calls that target different fields give the same state in either order |
| `ProviderSpec.StepAppends` | context/ultimatelyricsprovider.h:54-57 | one call appends to each of the four lists exactly the entry it adds to that list, and nothing to the others |
| `ProviderSpec.ApplyConcat` | context/ultimatelyricsprovider.h:50-63 | making calls `xs` and then `ys` gives the same state as making `xs + ys` |
| `ProviderSpec.Untouched` | context/ultimatelyricsprovider.h:50-63 | over any sequence of calls, a field that no call targets keeps its value |
| `ProviderSpec.AppendsAccumulate` | context/ultimatelyricsprovider.h:54-57 | after any sequence of calls, each of the four lists is its old contents followed by exactly the entries appended to it, in call order |
| `ProviderSpec.LastSetWins` | context/ultimatelyricsprovider.h:50-63 | after any sequence of calls, a field holds the argument of the last setter call that targeted it |

## Left out

- The constructor and destructor bodies are in `ultimatelyricsprovider.cpp`, which is not part of this model. The model starts the Qt-typed members empty, which is what their default construction gives. It leaves `enabled` and `relevance` unconstrained.
- `extract`, `extractXmlTag`, `exclude`, `excludeXmlTag`, `applyExtractRule`, `applyExcludeRule`, `doTagReplace`, `doUrlReplace`, `tryWithoutThe` and `displayName` are only declared in the header. Their bodies are in the `.cpp`, so no behaviour is given to them.
- `fetchInfo`, `abort`, `lyricsFetched`, `wikiMediaSearchResponse`, `wikiMediaLyricsFetched` and the `lyricsReady` signal are left out. They are network jobs and Qt signal/slot dispatch with bodies outside the header.
- The `requests` hash (network job to id) and the `songs` map are left out. Only the code in the `.cpp` maintains them, and they refer to opaque network handles.
- `tag_regexp` is a `QRegularExpression`, from a foreign regex library, and is left out.
- The placeholder strings and `constThe` are kept as constants only, because the substitution code that gives them meaning is not part of this model.
- The static `debugEnabled` is one `DebugSwitch` object rather than a class-static variable. Dafny has no mutable statics, and the object plays the same role of one flag shared by every provider.
- Qt's implicit sharing of `QString` and `QList` is not modelled; the fields hold values.
