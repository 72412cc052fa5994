/**
 * The connection-details resolver of example/config/config.go: a `Config`
 * holding the SSM prefix and client, and `GetConnectionDetails`, which lists
 * the parameters under `<prefix>/<target>/` and classifies them by the suffix
 * of their names into OAuth2 client credentials and a base URL. The SSM
 * service is a function from a query path to its answer, and `url.Parse` is a
 * validity predicate on the text.
 */
module SsmConfig {
  import opened Wrappers
  import opened Text

  const SuffixClientId := "/oauth2/client-id"
  const SuffixClientSecret := "/oauth2/client-secret"
  const SuffixTokenUrl := "/oauth2/token-url"
  const SuffixScopePrefix := "/oauth2/scope-prefix"
  const SuffixBaseUrl := "/base-url"

  /** One SSM parameter: its full name and its (decrypted) value. */
  datatype Parameter = Parameter(name: string, value: string)

  /** The answer to GetParametersByPath: a failure, or the parameters (a nil list is the empty one). */
  datatype StoreResponse = StoreError(cause: string) | Parameters(params: seq<Parameter>)

  /** An SSM client: the answer it gives for each query path (recursive, decrypted). */
  type Store = string -> StoreResponse

  datatype ConfigError =
    | SsmClientNotSet
    | FetchFailed(path: string, cause: string)
    | NoConfigFound(path: string)
    | InvalidBaseUrl(value: string)

  /** `clientcredentials.Config` as returned: `scopes` is the caller's own array. */
  datatype Credentials = Credentials(clientId: string, clientSecret: string, tokenUrl: string, scopes: array<string>)

  /** What a successful call returns: the base URL (None for nil) and the credentials. */
  datatype Connection = Connection(baseUrl: Option<string>, credentials: Credentials)

  /** `fmt.Sprintf("%s/%s/", prefix, target)`. */
  function QueryPath(prefix: string, target: string): string {
    prefix + "/" + target + "/"
  }

  /** The prefix used when none is configured: `/<product>/<environment name>/<environment number>`. */
  function DefaultPrefix(product: string, environmentName: string, environmentNumber: string): string {
    "/" + product + "/" + environmentName + "/" + environmentNumber
  }

  // ---------------------------------------------------------------------
  // Classification

  datatype Kind = ClientId | ClientSecret | TokenUrl | ScopePrefix | BaseUrl | Unrecognised

  /** The `switch` of the parameter loop: the first suffix that matches, in source order. */
  function KindOf(name: string): Kind {
    if HasSuffix(name, SuffixClientId) then ClientId
    else if HasSuffix(name, SuffixClientSecret) then ClientSecret
    else if HasSuffix(name, SuffixTokenUrl) then TokenUrl
    else if HasSuffix(name, SuffixScopePrefix) then ScopePrefix
    else if HasSuffix(name, SuffixBaseUrl) then BaseUrl
    else Unrecognised
  }

  /**
   * No name ends in two of the recognised suffixes, so the order of the cases
   * of the switch does not matter: each kind is exactly "ends in its suffix".
   */
  lemma SuffixesExclusive(name: string)
    ensures KindOf(name) == ClientId <==> HasSuffix(name, SuffixClientId)
    ensures KindOf(name) == ClientSecret <==> HasSuffix(name, SuffixClientSecret)
    ensures KindOf(name) == TokenUrl <==> HasSuffix(name, SuffixTokenUrl)
    ensures KindOf(name) == ScopePrefix <==> HasSuffix(name, SuffixScopePrefix)
    ensures KindOf(name) == BaseUrl <==> HasSuffix(name, SuffixBaseUrl)
  {
    NotBothSuffixes(name, SuffixClientSecret, SuffixClientId, 0);
    NotBothSuffixes(name, SuffixClientId, SuffixTokenUrl, 0);
    NotBothSuffixes(name, SuffixScopePrefix, SuffixClientId, 0);
    NotBothSuffixes(name, SuffixClientId, SuffixBaseUrl, 0);
    NotBothSuffixes(name, SuffixClientSecret, SuffixTokenUrl, 0);
    NotBothSuffixes(name, SuffixClientSecret, SuffixScopePrefix, 0);
    NotBothSuffixes(name, SuffixClientSecret, SuffixBaseUrl, 0);
    NotBothSuffixes(name, SuffixScopePrefix, SuffixTokenUrl, 0);
    NotBothSuffixes(name, SuffixTokenUrl, SuffixBaseUrl, 4);
    NotBothSuffixes(name, SuffixScopePrefix, SuffixBaseUrl, 0);
  }

  /** The five classifications of SuffixesExclusive, as one predicate. */
  predicate SuffixesExclusiveAt(name: string) {
    && (KindOf(name) == ClientId <==> HasSuffix(name, SuffixClientId))
    && (KindOf(name) == ClientSecret <==> HasSuffix(name, SuffixClientSecret))
    && (KindOf(name) == TokenUrl <==> HasSuffix(name, SuffixTokenUrl))
    && (KindOf(name) == ScopePrefix <==> HasSuffix(name, SuffixScopePrefix))
    && (KindOf(name) == BaseUrl <==> HasSuffix(name, SuffixBaseUrl))
  }

  /** Two suffixes that differ `k` characters from the end cannot both end one name. */
  lemma NotBothSuffixes(name: string, a: string, b: string, k: nat)
    requires k < |b| <= |a| && a[|a| - 1 - k] != b[|b| - 1 - k]
    ensures !(HasSuffix(name, a) && HasSuffix(name, b))
  {
    if HasSuffix(name, a) && HasSuffix(name, b) {
      SuffixesNest(name, a, b);
    }
  }

  /** The parameter names the resolver is written for, under the query path, are classified as intended. */
  lemma DocumentedNames(prefix: string, target: string)
    ensures KindOf(prefix + "/" + target + SuffixClientId) == ClientId
    ensures KindOf(prefix + "/" + target + SuffixClientSecret) == ClientSecret
    ensures KindOf(prefix + "/" + target + SuffixTokenUrl) == TokenUrl
    ensures KindOf(prefix + "/" + target + SuffixScopePrefix) == ScopePrefix
    ensures KindOf(prefix + "/" + target + SuffixBaseUrl) == BaseUrl
  {
    DocumentedName(prefix + "/" + target, SuffixClientId);
    DocumentedName(prefix + "/" + target, SuffixClientSecret);
    DocumentedName(prefix + "/" + target, SuffixTokenUrl);
    DocumentedName(prefix + "/" + target, SuffixScopePrefix);
    DocumentedName(prefix + "/" + target, SuffixBaseUrl);
  }

  lemma DocumentedName(path: string, suffix: string)
    ensures HasSuffix(path + suffix, suffix)
    ensures SuffixesExclusiveAt(path + suffix)
  {
    HasSuffixPrepend(path, suffix, suffix);
    SuffixesExclusive(path + suffix);
  }

  // ---------------------------------------------------------------------
  // The parameter loop, as a function of the parameters

  /** The loop's working state: the three credential strings, the scopes and the base URL. */
  datatype Fields = Fields(clientId: string, clientSecret: string, tokenUrl: string,
                           scopes: seq<string>, baseUrl: Option<string>)

  /** The loop either runs to the end or stops at a base URL that does not parse, with the state it had then. */
  datatype LoopResult = Done(fields: Fields) | Aborted(fields: Fields, badValue: string)

  /** The state before the first parameter: empty credentials, the caller's scopes, no base URL. */
  function InitialFields(scopes: seq<string>): Fields {
    Fields("", "", "", scopes, None)
  }

  /** Every scope with `prefix` put in front. */
  function PrefixAll(prefix: string, scopes: seq<string>): (r: seq<string>)
    ensures |r| == |scopes|
    ensures forall i :: 0 <= i < |r| ==> r[i] == prefix + scopes[i]
  {
    seq(|scopes|, i requires 0 <= i < |scopes| => prefix + scopes[i])
  }

  /** One iteration of the loop. */
  function Step(f: Fields, p: Parameter, validUrl: string -> bool): LoopResult {
    match KindOf(p.name)
    case ClientId => Done(f.(clientId := p.value))
    case ClientSecret => Done(f.(clientSecret := p.value))
    case TokenUrl => Done(f.(tokenUrl := p.value))
    case ScopePrefix => Done(f.(scopes := PrefixAll(p.value, f.scopes)))
    case BaseUrl => if validUrl(p.value) then Done(f.(baseUrl := Some(p.value))) else Aborted(f, p.value)
    case Unrecognised => Done(f)
  }

  /** The loop over the parameters, in the order the store returned them. */
  function Run(f: Fields, ps: seq<Parameter>, validUrl: string -> bool): LoopResult
    decreases |ps|
  {
    if ps == [] then Done(f)
    else
      match Step(f, ps[0], validUrl)
      case Aborted(g, v) => Aborted(g, v)
      case Done(g) => Run(g, ps[1..], validUrl)
  }

  /** The loop on a list that starts with `p`: one step, then the rest unless it aborted. */
  lemma RunCons(f: Fields, p: Parameter, rest: seq<Parameter>, validUrl: string -> bool)
    ensures Step(f, p, validUrl).Aborted? ==> Run(f, [p] + rest, validUrl) == Step(f, p, validUrl)
    ensures Step(f, p, validUrl).Done? ==> Run(f, [p] + rest, validUrl) == Run(Step(f, p, validUrl).fields, rest, validUrl)
  {
    assert ([p] + rest)[0] == p && ([p] + rest)[1..] == rest;
  }

  /** A parameter whose name matches no suffix can be dropped from anywhere without effect. */
  lemma {:induction false} UnrecognisedChangesNothing(f: Fields, a: seq<Parameter>, p: Parameter, b: seq<Parameter>,
                                                      validUrl: string -> bool)
    requires KindOf(p.name) == Unrecognised
    ensures Run(f, a + [p] + b, validUrl) == Run(f, a + b, validUrl)
    decreases |a|
  {
    if a == [] {
      assert a + [p] + b == [p] + b && ([p] + b)[1..] == b && a + b == b;
    } else {
      assert (a + [p] + b)[0] == a[0] && (a + [p] + b)[1..] == a[1..] + [p] + b;
      assert (a + b)[0] == a[0] && (a + b)[1..] == a[1..] + b;
      match Step(f, a[0], validUrl)
      case Aborted(_, _) =>
      case Done(g) => UnrecognisedChangesNothing(g, a[1..], p, b, validUrl);
    }
  }

  /** The loop never adds or removes scopes, whether it completes or aborts. */
  lemma {:induction false} ScopeCountUnchanged(f: Fields, ps: seq<Parameter>, validUrl: string -> bool)
    ensures |Run(f, ps, validUrl).fields.scopes| == |f.scopes|
    decreases |ps|
  {
    if ps != [] {
      match Step(f, ps[0], validUrl)
      case Aborted(_, _) =>
      case Done(g) => ScopeCountUnchanged(g, ps[1..], validUrl);
    }
  }

  /** Two scope-prefix parameters prefix every scope twice, the later value outermost. */
  lemma ScopePrefixTwice(f: Fields, p1: Parameter, p2: Parameter, validUrl: string -> bool)
    requires KindOf(p1.name) == ScopePrefix && KindOf(p2.name) == ScopePrefix
    ensures Run(f, [p1, p2], validUrl) == Done(f.(scopes := PrefixAll(p2.value + p1.value, f.scopes)))
  {
    var f1 := f.(scopes := PrefixAll(p1.value, f.scopes));
    var f2 := f1.(scopes := PrefixAll(p2.value, f1.scopes));
    assert Step(f, p1, validUrl) == Done(f1);
    assert [p1, p2][1..] == [p2];
    assert Run(f, [p1, p2], validUrl) == Run(f1, [p2], validUrl);
    assert Step(f1, p2, validUrl) == Done(f2);
    assert [p2][1..] == [];
    assert Run(f1, [p2], validUrl) == Done(f2);
    PrefixAllTwice(p2.value, p1.value, f.scopes);
  }

  /**
   * A base URL that does not parse aborts the call, but a scope prefix
   * listed before it has already rewritten the caller's scopes, while one
   * listed after it has not: the caller's array depends on the order.
   */
  lemma AbortedScopesDependOnOrder(prefix: string, target: string, scope: string, scopePrefix: string,
                                   baseUrl: string, validUrl: string -> bool)
    requires !validUrl(baseUrl) && scopePrefix != ""
    ensures var sp := Parameter(prefix + "/" + target + SuffixScopePrefix, scopePrefix);
            var bu := Parameter(prefix + "/" + target + SuffixBaseUrl, baseUrl);
            && Run(InitialFields([scope]), [sp, bu], validUrl) == Aborted(InitialFields([scopePrefix + scope]), baseUrl)
            && Run(InitialFields([scope]), [bu, sp], validUrl) == Aborted(InitialFields([scope]), baseUrl)
            && [scopePrefix + scope] != [scope]
  {
    DocumentedNames(prefix, target);
    var sp := Parameter(prefix + "/" + target + SuffixScopePrefix, scopePrefix);
    var bu := Parameter(prefix + "/" + target + SuffixBaseUrl, baseUrl);
    assert [sp, bu][1..] == [bu];
    assert PrefixAll(scopePrefix, [scope]) == [scopePrefix + scope];
    assert |scopePrefix + scope| != |scope|;
  }

  // ---------------------------------------------------------------------
  // A closed-form description of the loop

  /** The value of the last parameter of kind `k`, if any. */
  function LastOf(ps: seq<Parameter>, k: Kind): Option<string> {
    if ps == [] then None
    else
      var rest := LastOf(ps[1..], k);
      if rest.Some? then rest
      else if KindOf(ps[0].name) == k then Some(ps[0].value)
      else None
  }

  /** The scope prefixes stacked up: the latest outermost. */
  function PrefixChain(ps: seq<Parameter>): string {
    if ps == [] then ""
    else PrefixChain(ps[1..]) + (if KindOf(ps[0].name) == ScopePrefix then ps[0].value else "")
  }

  /** Every base URL among the parameters parses. */
  predicate BaseUrlsValid(ps: seq<Parameter>, validUrl: string -> bool) {
    forall p :: p in ps && KindOf(p.name) == BaseUrl ==> validUrl(p.value)
  }

  /**
   * The state after all of `ps`: each credential is the last value given
   * for it (or what it was), every scope carries the chain of scope
   * prefixes, and the base URL is the last one given (or what it was).
   */
  function Summary(f: Fields, ps: seq<Parameter>): Fields {
    Fields(LastOf(ps, ClientId).GetOr(f.clientId),
           LastOf(ps, ClientSecret).GetOr(f.clientSecret),
           LastOf(ps, TokenUrl).GetOr(f.tokenUrl),
           PrefixAll(PrefixChain(ps), f.scopes),
           if LastOf(ps, BaseUrl).Some? then LastOf(ps, BaseUrl) else f.baseUrl)
  }

  lemma PrefixAllTwice(a: string, b: string, s: seq<string>)
    ensures PrefixAll(a, PrefixAll(b, s)) == PrefixAll(a + b, s)
  {
    assert forall i :: 0 <= i < |s| ==> a + (b + s[i]) == (a + b) + s[i];
  }

  lemma PrefixAllEmpty(s: seq<string>)
    ensures PrefixAll("", s) == s
  {
    assert forall i :: 0 <= i < |s| ==> "" + s[i] == s[i];
  }

  /**
   * The loop completes iff every base URL parses, and then its result is the
   * Summary: later parameters overwrite earlier ones of the same kind,
   * unrecognised ones change nothing, every scope-prefix parameter is applied
   * once more, and the number of scopes never changes.
   */
  lemma {:induction false} RunCompletes(f: Fields, ps: seq<Parameter>, validUrl: string -> bool)
    ensures Run(f, ps, validUrl).Done? <==> BaseUrlsValid(ps, validUrl)
    ensures Run(f, ps, validUrl).Done? ==> Run(f, ps, validUrl).fields == Summary(f, ps)
    decreases |ps|
  {
    if ps == [] {
      PrefixAllEmpty(f.scopes);
    } else {
      var p := ps[0];
      assert forall q :: q in ps <==> q == p || q in ps[1..];
      match Step(f, p, validUrl)
      case Aborted(_, _) =>
      case Done(g) =>
        RunCompletes(g, ps[1..], validUrl);
        if KindOf(p.name) == ScopePrefix {
          PrefixAllTwice(PrefixChain(ps[1..]), p.value, f.scopes);
        } else {
          assert PrefixChain(ps) == PrefixChain(ps[1..]);
        }
    }
  }

  /** When the loop stops, it stops at the first base URL that does not parse, having done everything before it. */
  lemma {:induction false} RunAborts(f: Fields, ps: seq<Parameter>, validUrl: string -> bool)
    requires Run(f, ps, validUrl).Aborted?
    ensures exists j :: (0 <= j < |ps| && KindOf(ps[j].name) == BaseUrl && !validUrl(ps[j].value)
      && Run(f, ps[..j], validUrl).Done? && BaseUrlsValid(ps[..j], validUrl)
      && Run(f, ps, validUrl) == Aborted(Run(f, ps[..j], validUrl).fields, ps[j].value))
    decreases |ps|
  {
    var p := ps[0];
    match Step(f, p, validUrl)
    case Aborted(_, _) =>
      assert ps[..0] == [];
      assert KindOf(ps[0].name) == BaseUrl && !validUrl(ps[0].value);
    case Done(g) =>
      RunAborts(g, ps[1..], validUrl);
      var j :| 0 <= j < |ps[1..]| && KindOf(ps[1..][j].name) == BaseUrl && !validUrl(ps[1..][j].value)
                && Run(g, ps[1..][..j], validUrl).Done? && BaseUrlsValid(ps[1..][..j], validUrl)
                && Run(g, ps[1..], validUrl) == Aborted(Run(g, ps[1..][..j], validUrl).fields, ps[1..][j].value);
      assert ps[..j + 1] == [p] + ps[1..][..j];
      assert ps[..j + 1][1..] == ps[1..][..j];
      RunCompletes(f, ps[..j + 1], validUrl);
      RunCompletes(g, ps[1..][..j], validUrl);
  }

  // ---------------------------------------------------------------------
  // Order independence

  /** The value of `p` if it is of kind `k`. */
  function ValueIfKind(p: Parameter, k: Kind): multiset<string> {
    if KindOf(p.name) == k then multiset{p.value} else multiset{}
  }

  /** The values of the parameters of kind `k`, as a multiset. */
  function ValuesOf(ps: seq<Parameter>, k: Kind): multiset<string> {
    if ps == [] then multiset{} else ValueIfKind(ps[0], k) + ValuesOf(ps[1..], k)
  }

  /** Each recognised suffix occurs at most once. */
  predicate AtMostOnce(ps: seq<Parameter>) {
    forall k :: k != Unrecognised ==> |ValuesOf(ps, k)| <= 1
  }

  lemma {:induction false} ValuesOfConcat(a: seq<Parameter>, b: seq<Parameter>, k: Kind)
    ensures ValuesOf(a + b, k) == ValuesOf(a, k) + ValuesOf(b, k)
    decreases |a|
  {
    if a == [] {
      assert a + b == b;
    } else {
      var ab := a + b;
      assert ab[0] == a[0];
      assert ab[1..] == a[1..] + b;
      ValuesOfConcat(a[1..], b, k);
    }
  }

  /** Taking out the element at `j`, as multisets and as values of each kind. */
  lemma RemoveAt(qs: seq<Parameter>, j: nat, k: Kind)
    requires j < |qs|
    ensures multiset(qs[..j] + qs[j + 1..]) == multiset(qs) - multiset{qs[j]}
    ensures ValuesOf(qs, k) == ValuesOf(qs[..j] + qs[j + 1..], k) + ValueIfKind(qs[j], k)
  {
    assert qs == qs[..j] + [qs[j]] + qs[j + 1..];
    ValuesOfConcat(qs[..j] + [qs[j]], qs[j + 1..], k);
    ValuesOfConcat(qs[..j], [qs[j]], k);
    ValuesOfConcat(qs[..j], qs[j + 1..], k);
    assert [qs[j]][1..] == [];
  }

  /** ValuesOf sees only the multiset of the parameters, not their order. */
  lemma {:induction false} ValuesOfPermutation(ps: seq<Parameter>, qs: seq<Parameter>, k: Kind)
    requires multiset(ps) == multiset(qs)
    ensures ValuesOf(ps, k) == ValuesOf(qs, k)
    decreases |ps|
  {
    if ps == [] {
      assert |qs| == |multiset(qs)| == 0;
    } else {
      var p := ps[0];
      var j := IndexIn(qs, p);
      var rest := qs[..j] + qs[j + 1..];
      RemoveAt(qs, j, k);
      TailMultiset(ps);
      ValuesOfPermutation(ps[1..], rest, k);
      calc {
        ValuesOf(ps, k);
        ValueIfKind(p, k) + ValuesOf(ps[1..], k);
        ValueIfKind(p, k) + ValuesOf(rest, k);
        { MultisetUnionCommutes(ValueIfKind(p, k), ValuesOf(rest, k)); }
        ValuesOf(rest, k) + ValueIfKind(p, k);
        ValuesOf(qs, k);
      }
    }
  }

  /** A position at which an element of the multiset of `qs` occurs. */
  lemma IndexIn(qs: seq<Parameter>, p: Parameter) returns (j: nat)
    requires p in multiset(qs)
    ensures j < |qs| && qs[j] == p
  {
    assert p in qs;
    j :| 0 <= j < |qs| && qs[j] == p;
  }

  lemma TailMultiset(ps: seq<Parameter>)
    requires ps != []
    ensures multiset(ps[1..]) == multiset(ps) - multiset{ps[0]}
  {
    assert ps == [ps[0]] + ps[1..];
  }

  lemma MultisetUnionCommutes<T>(a: multiset<T>, b: multiset<T>)
    ensures a + b == b + a
  {
  }

  /** LastOf picks one of the values of its kind, and finds one whenever there is one. */
  lemma {:induction false} LastOfIn(ps: seq<Parameter>, k: Kind)
    ensures LastOf(ps, k).None? <==> ValuesOf(ps, k) == multiset{}
    ensures LastOf(ps, k).Some? ==> LastOf(ps, k).value in ValuesOf(ps, k)
    decreases |ps|
  {
    if ps != [] {
      LastOfIn(ps[1..], k);
    }
  }

  /** With at most one parameter of kind `k`, LastOf is that one's value. */
  lemma LastOfUnique(ps: seq<Parameter>, k: Kind)
    requires |ValuesOf(ps, k)| <= 1
    ensures LastOf(ps, k).None? ==> ValuesOf(ps, k) == multiset{}
    ensures LastOf(ps, k).Some? ==> ValuesOf(ps, k) == multiset{LastOf(ps, k).value}
  {
    LastOfIn(ps, k);
    if LastOf(ps, k).Some? {
      var v := LastOf(ps, k).value;
      var m := ValuesOf(ps, k);
      assert m == (m - multiset{v}) + multiset{v};
    }
  }

  lemma {:induction false} PrefixChainAtMostOnce(ps: seq<Parameter>)
    requires |ValuesOf(ps, ScopePrefix)| <= 1
    ensures PrefixChain(ps) == LastOf(ps, ScopePrefix).GetOr("")
    decreases |ps|
  {
    if ps != [] {
      PrefixChainAtMostOnce(ps[1..]);
      if KindOf(ps[0].name) == ScopePrefix {
        LastOfIn(ps[1..], ScopePrefix);
      }
    }
  }

  lemma LastOfPermutation(ps: seq<Parameter>, qs: seq<Parameter>, k: Kind)
    requires multiset(ps) == multiset(qs)
    requires |ValuesOf(ps, k)| <= 1
    ensures LastOf(ps, k) == LastOf(qs, k)
  {
    ValuesOfPermutation(ps, qs, k);
    LastOfUnique(ps, k);
    LastOfUnique(qs, k);
    if LastOf(ps, k).Some? && LastOf(qs, k).Some? {
      assert LastOf(ps, k).value in multiset{LastOf(qs, k).value};
    }
  }

  /** A parameter of kind `k` contributes its value to ValuesOf. */
  lemma {:induction false} ValueInValuesOf(ps: seq<Parameter>, j: nat, k: Kind)
    requires j < |ps| && KindOf(ps[j].name) == k
    ensures ps[j].value in ValuesOf(ps, k)
    decreases |ps|
  {
    assert ValuesOf(ps, k) == ValueIfKind(ps[0], k) + ValuesOf(ps[1..], k);
    if j == 0 {
      assert ValueIfKind(ps[0], k) == multiset{ps[0].value};
    } else {
      assert ps[1..][j - 1] == ps[j];
      ValueInValuesOf(ps[1..], j - 1, k);
    }
  }

  lemma AtMostOncePermutation(ps: seq<Parameter>, qs: seq<Parameter>)
    requires multiset(ps) == multiset(qs) && AtMostOnce(ps)
    ensures AtMostOnce(qs)
  {
    forall k | k != Unrecognised
      ensures |ValuesOf(qs, k)| <= 1
    {
      ValuesOfPermutation(ps, qs, k);
    }
  }

  lemma BaseUrlsValidPermutation(ps: seq<Parameter>, qs: seq<Parameter>, validUrl: string -> bool)
    requires multiset(ps) == multiset(qs)
    ensures BaseUrlsValid(ps, validUrl) <==> BaseUrlsValid(qs, validUrl)
  {
    assert forall p :: p in ps <==> p in multiset(ps);
    assert forall p :: p in qs <==> p in multiset(qs);
  }

  lemma SummaryPermutation(f: Fields, ps: seq<Parameter>, qs: seq<Parameter>)
    requires multiset(ps) == multiset(qs) && AtMostOnce(ps)
    ensures Summary(f, ps) == Summary(f, qs)
  {
    AtMostOncePermutation(ps, qs);
    assert |ValuesOf(ps, ClientId)| <= 1 && |ValuesOf(ps, ClientSecret)| <= 1 && |ValuesOf(ps, TokenUrl)| <= 1;
    assert |ValuesOf(ps, ScopePrefix)| <= 1 && |ValuesOf(ps, BaseUrl)| <= 1;
    assert |ValuesOf(qs, ScopePrefix)| <= 1;
    LastOfPermutation(ps, qs, ClientId);
    LastOfPermutation(ps, qs, ClientSecret);
    LastOfPermutation(ps, qs, TokenUrl);
    LastOfPermutation(ps, qs, ScopePrefix);
    LastOfPermutation(ps, qs, BaseUrl);
    PrefixChainAtMostOnce(ps);
    PrefixChainAtMostOnce(qs);
  }

  /** With at most one base URL, the one the loop rejects is that one. */
  lemma RejectedBaseUrlUnique(f: Fields, ps: seq<Parameter>, validUrl: string -> bool)
    requires Run(f, ps, validUrl).Aborted? && |ValuesOf(ps, BaseUrl)| <= 1
    ensures ValuesOf(ps, BaseUrl) == multiset{Run(f, ps, validUrl).badValue}
  {
    RunAborts(f, ps, validUrl);
    var i :| 0 <= i < |ps| && KindOf(ps[i].name) == BaseUrl && Run(f, ps, validUrl).badValue == ps[i].value;
    ValueInValuesOf(ps, i, BaseUrl);
    LastOfUnique(ps, BaseUrl);
    LastOfIn(ps, BaseUrl);
  }

  /**
   * When each recognised suffix occurs at most once, reordering the
   * parameters changes nothing: the same outcome, the same result on
   * success, and the same rejected base URL on failure.
   */
  lemma OrderIndependent(f: Fields, ps: seq<Parameter>, qs: seq<Parameter>, validUrl: string -> bool)
    requires multiset(ps) == multiset(qs)
    requires AtMostOnce(ps)
    ensures AtMostOnce(qs)
    ensures Run(f, ps, validUrl).Done? <==> Run(f, qs, validUrl).Done?
    ensures Run(f, ps, validUrl).Done? ==> Run(f, ps, validUrl) == Run(f, qs, validUrl)
    ensures Run(f, ps, validUrl).Aborted? ==> Run(f, ps, validUrl).badValue == Run(f, qs, validUrl).badValue
  {
    AtMostOncePermutation(ps, qs);
    BaseUrlsValidPermutation(ps, qs, validUrl);
    RunCompletes(f, ps, validUrl);
    RunCompletes(f, qs, validUrl);
    if Run(f, ps, validUrl).Done? {
      SummaryPermutation(f, ps, qs);
    } else {
      assert |ValuesOf(ps, BaseUrl)| <= 1 && |ValuesOf(qs, BaseUrl)| <= 1;
      RejectedBaseUrlUnique(f, ps, validUrl);
      RejectedBaseUrlUnique(f, qs, validUrl);
      ValuesOfPermutation(ps, qs, BaseUrl);
      assert Run(f, ps, validUrl).badValue in multiset{Run(f, qs, validUrl).badValue};
    }
  }

  // ---------------------------------------------------------------------
  // The Config object

  class Config {
    var ssm: Option<Store>
    var product: string
    var environmentName: string
    var environmentNumber: string
    var ssmPrefix: string

    /**
     * `New`, given what the environment holds: no SSM client yet, and an
     * empty prefix replaced by the default made of product and environment.
     */
    constructor New(product: string, environmentName: string, environmentNumber: string, ssmPrefix: string)
      ensures ssm == None
      ensures this.product == product && this.environmentName == environmentName
      ensures this.environmentNumber == environmentNumber
      ensures this.ssmPrefix == if ssmPrefix == "" then DefaultPrefix(product, environmentName, environmentNumber) else ssmPrefix
    {
      this.ssm := None;
      this.product := product;
      this.environmentName := environmentName;
      this.environmentNumber := environmentNumber;
      this.ssmPrefix := if ssmPrefix == "" then DefaultPrefix(product, environmentName, environmentNumber) else ssmPrefix;
    }

    /** `WithSsm`: sets the client and nothing else. */
    method WithSsm(client: Store)
      modifies this
      ensures ssm == Some(client)
      ensures product == old(product) && environmentName == old(environmentName)
      ensures environmentNumber == old(environmentNumber) && ssmPrefix == old(ssmPrefix)
    {
      ssm := Some(client);
    }

    /**
     * `GetConnectionDetails`. Without a client, a failing store or an empty
     * answer it fails before touching `scopes`. Otherwise it runs the
     * parameter loop: `scopes` is prefixed in place, so the caller sees the
     * prefixes even when a bad base URL then aborts the call, and on success
     * the returned credentials share the caller's array.
     */
    method GetConnectionDetails(target: string, scopes: array<string>, validUrl: string -> bool)
      returns (r: Result<Connection, ConfigError>)
      modifies scopes
      ensures ssm.None? ==> r == Failure(SsmClientNotSet) && scopes[..] == old(scopes[..])
      ensures ssm.Some? ==>
        var path := QueryPath(ssmPrefix, target);
        match ssm.value(path)
        case StoreError(cause) => r == Failure(FetchFailed(path, cause)) && scopes[..] == old(scopes[..])
        case Parameters(ps) =>
          if ps == [] then r == Failure(NoConfigFound(path)) && scopes[..] == old(scopes[..])
          else
            match Run(InitialFields(old(scopes[..])), ps, validUrl)
            case Aborted(g, v) => r == Failure(InvalidBaseUrl(v)) && scopes[..] == g.scopes
            case Done(g) =>
              && r == Success(Connection(g.baseUrl, Credentials(g.clientId, g.clientSecret, g.tokenUrl, scopes)))
              && scopes[..] == g.scopes
    {
      if ssm.None? {
        return Failure(SsmClientNotSet);
      }
      var path := ssmPrefix + "/" + target + "/";
      var response := ssm.value(path);
      if response.StoreError? {
        return Failure(FetchFailed(path, response.cause));
      }
      var params := response.params;
      if |params| == 0 {
        return Failure(NoConfigFound(path));
      }

      var loop := ParameterLoop(scopes, params, validUrl);
      match loop
      case Aborted(_, v) =>
        r := Failure(InvalidBaseUrl(v));
      case Done(g) =>
        r := Success(Connection(g.baseUrl, Credentials(g.clientId, g.clientSecret, g.tokenUrl, scopes)));
    }
  }

  /**
   * The `for` loop over the parameters: it classifies each one, prefixes
   * `scopes` in place and stops at a base URL that does not parse.
   */
  method ParameterLoop(scopes: array<string>, params: seq<Parameter>, validUrl: string -> bool)
    returns (res: LoopResult)
    modifies scopes
    ensures res == Run(InitialFields(old(scopes[..])), params, validUrl)
    ensures scopes[..] == res.fields.scopes
  {
    ghost var initial := InitialFields(scopes[..]);
    var baseUrl: Option<string> := None;
    var clientId, clientSecret, tokenUrl := "", "", "";
    for i := 0 to |params|
      invariant Run(initial, params, validUrl)
             == Run(Fields(clientId, clientSecret, tokenUrl, scopes[..], baseUrl), params[i..], validUrl)
    {
      var parameter := params[i];
      ghost var before := Fields(clientId, clientSecret, tokenUrl, scopes[..], baseUrl);
      assert params[i..] == [parameter] + params[i + 1..];
      RunCons(before, parameter, params[i + 1..], validUrl);
      if HasSuffix(parameter.name, SuffixClientId) {
        clientId := parameter.value;
        assert Step(before, parameter, validUrl) == Done(before.(clientId := clientId));
      } else if HasSuffix(parameter.name, SuffixClientSecret) {
        clientSecret := parameter.value;
        assert Step(before, parameter, validUrl) == Done(before.(clientSecret := clientSecret));
      } else if HasSuffix(parameter.name, SuffixTokenUrl) {
        tokenUrl := parameter.value;
        assert Step(before, parameter, validUrl) == Done(before.(tokenUrl := tokenUrl));
      } else if HasSuffix(parameter.name, SuffixScopePrefix) {
        PrefixScopes(scopes, parameter.value);
        assert Step(before, parameter, validUrl) == Done(before.(scopes := scopes[..]));
      } else if HasSuffix(parameter.name, SuffixBaseUrl) {
        if !validUrl(parameter.value) {
          assert Step(before, parameter, validUrl) == Aborted(before, parameter.value);
          return Aborted(Fields(clientId, clientSecret, tokenUrl, scopes[..], baseUrl), parameter.value);
        }
        baseUrl := Some(parameter.value);
        assert Step(before, parameter, validUrl) == Done(before.(baseUrl := baseUrl));
      } else {
        assert Step(before, parameter, validUrl) == Done(before);
      }
    }
    assert params[|params|..] == [];
    res := Done(Fields(clientId, clientSecret, tokenUrl, scopes[..], baseUrl));
  }

  /** The inner loop: every scope, in place, gets `prefix` in front. */
  method PrefixScopes(scopes: array<string>, prefix: string)
    modifies scopes
    ensures scopes[..] == PrefixAll(prefix, old(scopes[..]))
  {
    for i := 0 to scopes.Length
      invariant forall k :: 0 <= k < i ==> scopes[k] == prefix + old(scopes[k])
      invariant forall k :: i <= k < scopes.Length ==> scopes[k] == old(scopes[k])
    {
      scopes[i] := prefix + scopes[i];
    }
  }
}
