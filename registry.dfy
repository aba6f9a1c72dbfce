/** `ProviderRegistry`: the table of provider objects keyed by type, and the
    ordered lists of all and of enabled providers. */
module Registry {
  import opened Wrappers
  import opened ProviderTypes
  import opened SettingsModel
  import opened Providers
  import ClaudeProviders
  import GeminiProviders

  /** `types.compactMap { providers[$0] }`, keeping only the wanted types. */
  function Select(providers: map<ProviderType, AnyProvider>, types: seq<ProviderType>, wanted: ProviderType -> bool): (r: seq<AnyProvider>)
    ensures |r| <= |types|
    decreases |types|
  {
    if types == [] then []
    else
      var t := types[|types| - 1];
      Select(providers, types[..|types| - 1], wanted) + (if wanted(t) && t in providers then [providers[t]] else [])
  }

  /** `p` is the provider registered for one of the wanted types. */
  predicate Picked(providers: map<ProviderType, AnyProvider>, types: seq<ProviderType>, wanted: ProviderType -> bool, p: AnyProvider) {
    exists i :: 0 <= i < |types| && wanted(types[i]) && types[i] in providers && providers[types[i]] == p
  }

  /** The selection holds the registered providers of the wanted types and nothing else. */
  lemma {:induction false} SelectMembers(providers: map<ProviderType, AnyProvider>, types: seq<ProviderType>, wanted: ProviderType -> bool)
    ensures forall k :: 0 <= k < |Select(providers, types, wanted)| ==> Picked(providers, types, wanted, Select(providers, types, wanted)[k])
    ensures forall i :: 0 <= i < |types| && wanted(types[i]) && types[i] in providers ==> providers[types[i]] in Select(providers, types, wanted)
    decreases |types|
  {
    if types == [] {
      assert Select(providers, types, wanted) == [];
    } else {
      var init := types[..|types| - 1];
      SelectMembers(providers, init, wanted);
      var rest := Select(providers, init, wanted);
      var r := Select(providers, types, wanted);
      var t := types[|types| - 1];
      assert r == rest + (if wanted(t) && t in providers then [providers[t]] else []);
      forall k | 0 <= k < |r| ensures Picked(providers, types, wanted, r[k]) {
        if k < |rest| {
          assert r[k] == rest[k];
          assert Picked(providers, init, wanted, rest[k]);
          var i :| 0 <= i < |init| && wanted(init[i]) && init[i] in providers && providers[init[i]] == rest[k];
          assert types[i] == init[i];
        } else {
          assert r[k] == providers[types[|types| - 1]];
        }
      }
      forall i | 0 <= i < |types| && wanted(types[i]) && types[i] in providers ensures providers[types[i]] in r {
        if i < |init| {
          assert types[i] == init[i];
        }
      }
    }
  }

  function Everything(): ProviderType -> bool {
    t => true
  }

  function EnabledIn(config: Config): ProviderType -> bool {
    t => config.IsProviderEnabled(t)
  }

  /** Selecting from the fully registered table lists, in `allCases` order,
      exactly the wanted types' providers. */
  lemma {:induction false} SelectTypes(providers: map<ProviderType, AnyProvider>, types: seq<ProviderType>, wanted: ProviderType -> bool)
    requires forall t :: t in providers && providers[t].Type() == t
    ensures var r := Select(providers, types, wanted);
            |r| == |Kept(types, wanted)| && forall i :: 0 <= i < |r| ==> r[i].Type() == Kept(types, wanted)[i]
    decreases |types|
  {
    if types != [] {
      SelectTypes(providers, types[..|types| - 1], wanted);
    }
  }

  /** The wanted types among `types`, in order. */
  function Kept(types: seq<ProviderType>, wanted: ProviderType -> bool): seq<ProviderType>
    decreases |types|
  {
    if types == [] then []
    else Kept(types[..|types| - 1], wanted) + (if wanted(types[|types| - 1]) then [types[|types| - 1]] else [])
  }

  class ProviderRegistry {
    var providers: map<ProviderType, AnyProvider>

    /** Each provider is filed under its own type. */
    ghost predicate Valid()
      reads this
    {
      forall t :: t in providers ==> providers[t].Type() == t
    }

    /** Registers the three built-in providers, each with fresh state. */
    constructor ()
      ensures Valid() && forall t :: t in providers
      ensures providers[Claude].ClaudeP? && fresh(providers[Claude].claude)
      ensures providers[Claude].claude.sessionIndexCache == map[]
      ensures providers[Gemini].GeminiP? && fresh(providers[Gemini].gemini)
      ensures providers[Codex] == CodexP
      ensures providers[Claude].claude as object != providers[Gemini].gemini
    {
      var claude := new ClaudeProviders.ClaudeProvider();
      var gemini := new GeminiProviders.GeminiProvider();
      providers := map[];
      new;
      Register(ClaudeP(claude));
      Register(GeminiP(gemini));
      Register(CodexP);
      forall t: ProviderType ensures t in providers {
        assert t == Claude || t == Gemini || t == Codex;
      }
    }

    /** A later registration for the same type replaces the earlier one. */
    method Register(provider: AnyProvider)
      modifies this
      ensures providers == old(providers)[provider.Type() := provider]
      ensures old(Valid()) ==> Valid()
    {
      providers := providers[provider.Type() := provider];
    }

    function Provider(t: ProviderType): (r: Option<AnyProvider>)
      reads this
      ensures r.Some? <==> t in providers
      ensures r.Some? ==> r.value == providers[t]
      ensures Valid() && r.Some? ==> r.value.Type() == t
    {
      if t in providers then Some(providers[t]) else None
    }

    function AllProviders(): (r: seq<AnyProvider>)
      reads this
      ensures forall k :: 0 <= k < |r| ==> Picked(providers, AllCases, Everything(), r[k])
      ensures forall t :: t in providers ==> providers[t] in r
    {
      var r := Select(providers, AllCases, Everything());
      SelectMembers(providers, AllCases, Everything());
      assert forall t :: t in providers ==> providers[t] in r by {
        forall t | t in providers ensures providers[t] in r {
          AllCasesIndex(t);
          var i :| 0 <= i < |AllCases| && AllCases[i] == t;
          assert Everything()(AllCases[i]);
        }
      }
      r
    }

    /** `enabledProviders(settings:)`. */
    method EnabledProviders(settings: Settings) returns (result: seq<AnyProvider>)
      ensures result == Select(providers, AllCases, EnabledIn(settings.Snapshot()))
    {
      var config := settings.Snapshot();
      result := [];
      var i := 0;
      while i < |AllCases|
        invariant 0 <= i <= |AllCases|
        invariant result == Select(providers, AllCases[..i], EnabledIn(config))
      {
        var providerType := AllCases[i];
        assert AllCases[..i + 1][..i] == AllCases[..i];
        if config.IsProviderEnabled(providerType) && providerType in providers {
          result := result + [providers[providerType]];
        }
        i := i + 1;
      }
      assert AllCases[..i] == AllCases;
    }
  }

  lemma AllCasesIndex(t: ProviderType)
    ensures exists i :: 0 <= i < |AllCases| && AllCases[i] == t
  {
    match t
    case Claude => assert AllCases[0] == t;
    case Gemini => assert AllCases[1] == t;
    case Codex => assert AllCases[2] == t;
  }

  /** With every type registered, the enabled providers are exactly those
      whose switch is on, in `allCases` order, and they are a selection of
      all providers. */
  lemma EnabledShape(providers: map<ProviderType, AnyProvider>, config: Config)
    requires forall t :: t in providers && providers[t].Type() == t
    ensures var r := Select(providers, AllCases, EnabledIn(config));
            |r| == |Kept(AllCases, EnabledIn(config))|
            && (forall i :: 0 <= i < |r| ==> r[i].Type() == Kept(AllCases, EnabledIn(config))[i])
            && (forall k :: 0 <= k < |r| ==> r[k] in Select(providers, AllCases, Everything()) && config.IsProviderEnabled(r[k].Type()))
            && (forall t :: config.IsProviderEnabled(t) ==> providers[t] in r)
  {
    SelectTypes(providers, AllCases, EnabledIn(config));
    SelectMembers(providers, AllCases, EnabledIn(config));
    SelectMembers(providers, AllCases, Everything());
    var r := Select(providers, AllCases, EnabledIn(config));
    var all := Select(providers, AllCases, Everything());
    forall t | config.IsProviderEnabled(t) ensures providers[t] in r {
      AllCasesIndex(t);
    }
    forall k | 0 <= k < |r| ensures r[k] in all && config.IsProviderEnabled(r[k].Type()) {
      assert Picked(providers, AllCases, EnabledIn(config), r[k]);
      var i :| 0 <= i < |AllCases| && EnabledIn(config)(AllCases[i]) && AllCases[i] in providers && providers[AllCases[i]] == r[k];
      assert Everything()(AllCases[i]);
    }
  }
}
