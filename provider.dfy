/**
 * The lyrics-provider descriptor: the configuration fields of a provider
 * and the inline setters, getters and appenders that write and read them.
 * Each mutator is proved to do what `ProviderSpec.Step` says of the
 * matching call, so the lemmas of ProviderSpec apply to every object.
 */
module UltimateLyrics {
  import opened ProviderSpec

  // Placeholders recognised in URL templates and rules, and the leading
  // article dropped on a retry. The code that substitutes them is not part
  // of this model; they are kept here by name only.
  const ArtistArg: string := "{Artist}"
  const ArtistLowerArg: string := "{artist}"
  const ArtistLowerNoSpaceArg: string := "{artist2}"
  const ArtistFirstCharArg: string := "{a}"
  const AlbumArg: string := "{Album}"
  const AlbumLowerArg: string := "{album}"
  const AlbumLowerNoSpaceArg: string := "{album2}"
  const TitleLowerArg: string := "{title}"
  const TitleArg: string := "{Title}"
  const TitleCaseArg: string := "{Title2}"
  const YearArg: string := "{year}"
  const TrackNoArg: string := "{track}"
  const The: string := "The "

  /**
   * The process-wide debug switch. It is a single static flag shared by all
   * providers, so it is modelled as one object, separate from any provider,
   * that every provider would refer to.
   */
  class DebugSwitch {
    var debugEnabled: bool

    /** The flag starts off. */
    constructor ()
      ensures !debugEnabled
    {
      debugEnabled := false;
    }

    /** Sets the flag; it stays set, so a second call changes nothing. */
    method EnableDebug()
      modifies this
      ensures debugEnabled
      ensures old(debugEnabled) ==> unchanged(this)
    {
      debugEnabled := true;
    }
  }

  class UltimateLyricsProvider {
    var enabled: bool
    var name: string
    var url: string
    var charset: string
    var relevance: int32
    var urlFormats: seq<UrlFormat>
    var extractRules: seq<Rule>
    var excludeRules: seq<Rule>
    var invalidIndicators: seq<string>

    /** The provider's configuration as a value. */
    function Snapshot(): Config
      reads this
    {
      Config(name, url, charset, relevance, enabled,
             urlFormats, extractRules, excludeRules, invalidIndicators)
    }

    /**
     * A new provider: its strings and lists are empty. `enabled` and
     * `relevance` are given their first values by code outside this model,
     * so nothing is promised about them here.
     */
    constructor ()
      ensures name == "" && url == "" && charset == ""
      ensures urlFormats == [] && extractRules == [] && excludeRules == []
      ensures invalidIndicators == []
    {
      name, url, charset := "", "", "";
      urlFormats, extractRules, excludeRules, invalidIndicators := [], [], [], [];
    }

    /** The stored `name`; its round trip with the setter is in the setter's contract. */
    function GetName(): (r: string)
      reads this
      ensures r == Snapshot().name
    {
      name
    }

    /** The stored `relevance`; its round trip with the setter is in the setter's contract. */
    function GetRelevance(): (r: int32)
      reads this
      ensures r == Snapshot().relevance
    {
      relevance
    }

    /** The stored `enabled`; its round trip with the setter is in the setter's contract. */
    function IsEnabled(): (r: bool)
      reads this
      ensures r == Snapshot().enabled
    {
      enabled
    }

    method SetName(n: string)
      modifies this
      ensures GetName() == n
      ensures Snapshot() == Step(old(Snapshot()), Op.SetName(n))
      ensures forall f :: f != Name ==> Agree(old(Snapshot()), Snapshot(), f)
    {
      name := n;
      StepFrame(old(Snapshot()), Op.SetName(n));
    }

    method SetUrl(u: string)
      modifies this
      ensures url == u
      ensures Snapshot() == Step(old(Snapshot()), Op.SetUrl(u))
      ensures forall f :: f != Url ==> Agree(old(Snapshot()), Snapshot(), f)
    {
      url := u;
      StepFrame(old(Snapshot()), Op.SetUrl(u));
    }

    method SetCharset(c: string)
      modifies this
      ensures charset == c
      ensures Snapshot() == Step(old(Snapshot()), Op.SetCharset(c))
      ensures forall f :: f != Charset ==> Agree(old(Snapshot()), Snapshot(), f)
    {
      charset := c;
      StepFrame(old(Snapshot()), Op.SetCharset(c));
    }

    method SetRelevance(r: int32)
      modifies this
      ensures GetRelevance() == r
      ensures Snapshot() == Step(old(Snapshot()), Op.SetRelevance(r))
      ensures forall f :: f != Relevance ==> Agree(old(Snapshot()), Snapshot(), f)
    {
      relevance := r;
      StepFrame(old(Snapshot()), Op.SetRelevance(r));
    }

    method SetEnabled(e: bool)
      modifies this
      ensures IsEnabled() == e
      ensures Snapshot() == Step(old(Snapshot()), Op.SetEnabled(e))
      ensures forall f :: f != Enabled ==> Agree(old(Snapshot()), Snapshot(), f)
      ensures old(IsEnabled()) == e ==> Snapshot() == old(Snapshot())
    {
      enabled := e;
      StepFrame(old(Snapshot()), Op.SetEnabled(e));
    }

    method AddUrlFormat(replace: string, with: string)
      modifies this
      ensures urlFormats == old(urlFormats) + [(replace, with)]
      ensures Snapshot() == Step(old(Snapshot()), Op.AddUrlFormat(replace, with))
      ensures forall f :: f != UrlFormats ==> Agree(old(Snapshot()), Snapshot(), f)
    {
      urlFormats := urlFormats + [(replace, with)];
      StepFrame(old(Snapshot()), Op.AddUrlFormat(replace, with));
    }

    method AddExtractRule(rule: Rule)
      modifies this
      ensures extractRules == old(extractRules) + [rule]
      ensures Snapshot() == Step(old(Snapshot()), Op.AddExtractRule(rule))
      ensures forall f :: f != ExtractRules ==> Agree(old(Snapshot()), Snapshot(), f)
    {
      extractRules := extractRules + [rule];
      StepFrame(old(Snapshot()), Op.AddExtractRule(rule));
    }

    method AddExcludeRule(rule: Rule)
      modifies this
      ensures excludeRules == old(excludeRules) + [rule]
      ensures Snapshot() == Step(old(Snapshot()), Op.AddExcludeRule(rule))
      ensures forall f :: f != ExcludeRules ==> Agree(old(Snapshot()), Snapshot(), f)
    {
      excludeRules := excludeRules + [rule];
      StepFrame(old(Snapshot()), Op.AddExcludeRule(rule));
    }

    method AddInvalidIndicator(indicator: string)
      modifies this
      ensures invalidIndicators == old(invalidIndicators) + [indicator]
      ensures Snapshot() == Step(old(Snapshot()), Op.AddInvalidIndicator(indicator))
      ensures forall f :: f != InvalidIndicators ==> Agree(old(Snapshot()), Snapshot(), f)
    {
      invalidIndicators := invalidIndicators + [indicator];
      StepFrame(old(Snapshot()), Op.AddInvalidIndicator(indicator));
    }
  }
}
