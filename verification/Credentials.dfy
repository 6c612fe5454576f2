/**
 * Image pull credentials (pkg/provider/image_pull_credentials.go, pkg/resource/registry_credentials.go).
 * Two keyrings are filled in step: one with what each registry entry of each secret says, the other
 * with the identity token of that entry, and ForImage pairs their matches by position.
 *
 * A keyring is any list of entries in insertion order whose lookup depends on the registries of the
 * entries and on that order only, not on the credentials: `order` gives the positions it returns.
 */
module Credentials {
  import opened Wrappers
  import opened SortedNames

  datatype Auth = Auth(server: string, username: string, password: string, identityToken: string)

  /** An entry of a keyring, with the secret and the registry it was added for. */
  datatype Placed = Placed(secret: string, registry: string, auth: Auth)

  type Keyring = seq<Placed>

  type Order = (string, seq<string>) -> seq<nat>

  function RegistriesOf(ring: Keyring): seq<string> {
    seq(|ring|, i requires 0 <= i < |ring| => ring[i].registry)
  }

  /** The order returns positions of the keyring, whatever the image and the registries. */
  ghost predicate Positions(order: Order) {
    forall image, names, i :: i in order(image, names) ==> i < |names|
  }

  ghost function Lookup(order: Order, ring: Keyring, image: string): (r: seq<Placed>)
    requires Positions(order)
    ensures |r| == |order(image, RegistriesOf(ring))|
    ensures forall k :: 0 <= k < |r| ==> order(image, RegistriesOf(ring))[k] < |ring|
    ensures forall k :: 0 <= k < |r| ==> r[k] == ring[order(image, RegistriesOf(ring))[k]]
  {
    var places := order(image, RegistriesOf(ring));
    assert forall k :: 0 <= k < |places| ==> places[k] in places;
    seq(|places|, k requires 0 <= k < |places| => ring[places[k]])
  }

  // ---------------------------------------------------------------- secrets

  /** The text of one data key of a secret, as the JSON decoder sees it. */
  datatype Text = Absent | Malformed | Config(auths: map<string, Auth>, tokens: map<string, string>)

  datatype Kind = DockerConfigJson | Dockercfg | OtherKind

  datatype Secret = Secret(kind: Kind, json: Text, legacy: Text)

  datatype Fetched<T> = NotFound | FetchFailed | Fetched(value: T)

  datatype Parsed = Parsed(auths: map<string, Auth>, tokens: map<string, string>)

  /** A text without an entry is an error; a dockercfg secret may hold the newer format. */
  function ParseImagePullSecret(s: Secret): Option<Parsed> {
    match s.kind
    case DockerConfigJson => ParseJson(s.json)
    case Dockercfg =>
      if !s.json.Absent? then ParseJson(s.json)
      else if s.legacy.Config? && s.legacy.auths != map[] then Some(Parsed(s.legacy.auths, map[]))
      else None
    case OtherKind => None
  }

  function ParseJson(t: Text): Option<Parsed> {
    if t.Config? && t.auths != map[] then Some(Parsed(t.auths, t.tokens)) else None
  }

  /** The identity token that the secret gives for the registry, or the empty string. */
  function TokenOf(p: Parsed, registry: string): string {
    if registry in p.tokens then p.tokens[registry] else ""
  }

  datatype Error =
    | AccountNotFound(name: string)
    | AccountFetchFailed(name: string)
    | SecretNotFound(name: string)
    | SecretFetchFailed(name: string)
    | SecretMalformed(name: string)

  datatype Store = Store(keyring: Option<Keyring>, tokenKeyring: Option<Keyring>)

  datatype Resolved = Resolved(store: Store) | Failed(error: Error)

  type Secrets = string -> Fetched<Secret>

  /** Why the secret of that name stops the resolution. */
  function Failure(name: string, secrets: Secrets): Option<Error> {
    match secrets(name)
    case NotFound => Some(SecretNotFound(name))
    case FetchFailed => Some(SecretFetchFailed(name))
    case Fetched(s) =>
      if !s.kind.OtherKind? && ParseImagePullSecret(s).None? then Some(SecretMalformed(name)) else None
  }

  /** The secret is there, of a supported type, and can be read. */
  predicate Usable(name: string, secrets: Secrets) {
    secrets(name).Fetched? && ParseImagePullSecret(secrets(name).value).Some?
  }

  function ParsedOf(name: string, secrets: Secrets): Parsed
    requires Usable(name, secrets)
  {
    ParseImagePullSecret(secrets(name).value).value
  }

  /** A registry entry of a secret. */
  datatype Origin = Origin(secret: string, registry: string)

  ghost predicate Real(o: Origin, secrets: Secrets) {
    Usable(o.secret, secrets) && o.registry in ParsedOf(o.secret, secrets).auths
  }

  ghost function EntryOf(o: Origin, secrets: Secrets): Placed
    requires Real(o, secrets)
  {
    Placed(o.secret, o.registry, ParsedOf(o.secret, secrets).auths[o.registry])
  }

  /** The mirror of an entry: its identity token in the place of the password. */
  ghost function MirrorOf(o: Origin, secrets: Secrets): Placed
    requires Real(o, secrets)
  {
    Placed(o.secret, o.registry, Auth("", "", TokenOf(ParsedOf(o.secret, secrets), o.registry), ""))
  }

  function InSecret(secret: string, registries: seq<string>): (r: seq<Origin>)
    ensures |r| == |registries| && forall i :: 0 <= i < |r| ==> r[i] == Origin(secret, registries[i])
  {
    seq(|registries|, i requires 0 <= i < |registries| => Origin(secret, registries[i]))
  }

  /** Every registry entry of every usable secret: secrets as listed, registries sorted. */
  ghost function Origins(names: seq<string>, secrets: Secrets): (r: seq<Origin>)
    ensures forall o :: o in r ==> Real(o, secrets) && o.secret in names
  {
    if names == [] then []
    else
      var name := names[|names| - 1];
      Origins(names[..|names| - 1], secrets) +
      if Usable(name, secrets) then InSecret(name, SortedOf(ParsedOf(name, secrets).auths.Keys)) else []
  }

  ghost function RingOf(origins: seq<Origin>, secrets: Secrets): (r: Keyring)
    requires forall o :: o in origins ==> Real(o, secrets)
    ensures |r| == |origins| && forall i :: 0 <= i < |r| ==> r[i] == EntryOf(origins[i], secrets)
  {
    seq(|origins|, i requires 0 <= i < |origins| => EntryOf(origins[i], secrets))
  }

  ghost function MirrorRingOf(origins: seq<Origin>, secrets: Secrets): (r: Keyring)
    requires forall o :: o in origins ==> Real(o, secrets)
    ensures |r| == |origins| && forall i :: 0 <= i < |r| ==> r[i] == MirrorOf(origins[i], secrets)
  {
    seq(|origins|, i requires 0 <= i < |origins| => MirrorOf(origins[i], secrets))
  }

  // ---------------------------------------------------------------- resolution

  /** The names at their first occurrence. */
  function Deduped(names: seq<string>): (r: seq<string>)
    ensures forall x :: x in r <==> x in names
  {
    if names == [] then []
    else
      var before, last := names[..|names| - 1], names[|names| - 1];
      assert names == before + [last];
      if last in before then Deduped(before) else Deduped(before) + [last]
  }

  lemma {:induction false} DedupedOnce(names: seq<string>)
    ensures forall i, j :: 0 <= i < j < |Deduped(names)| ==> Deduped(names)[i] != Deduped(names)[j]
  {
    if names != [] {
      DedupedOnce(names[..|names| - 1]);
    }
  }

  function Elements(names: seq<string>): set<string> {
    set x | x in names
  }

  lemma DedupedStep(names: seq<string>, x: string)
    ensures Deduped(names + [x]) == if x in Elements(names) then Deduped(names) else Deduped(names) + [x]
    ensures Elements(names + [x]) == Elements(names) + {x}
  {
    assert (names + [x])[..|names|] == names;
  }

  lemma Extend<T>(before: seq<T>, more: seq<T>, i: nat)
    requires i < |more|
    ensures before + more[..i + 1] == before + more[..i] + [more[i]]
  {
  }

  /** Add the references that have not been seen. */
  method AddUnseen(more: seq<string>, seen: set<string>, refs: seq<string>, ghost before: seq<string>)
    returns (nowSeen: set<string>, nowRefs: seq<string>)
    requires refs == Deduped(before) && seen == Elements(before)
    ensures nowRefs == Deduped(before + more) && nowSeen == Elements(before + more)
  {
    nowSeen, nowRefs := seen, refs;
    ghost var all := before;
    for i := 0 to |more|
      invariant all == before + more[..i] && nowRefs == Deduped(all) && nowSeen == Elements(all)
    {
      DedupedStep(all, more[i]);
      all := all + [more[i]];
      Extend(before, more, i);
      if more[i] in nowSeen {
        continue;
      }
      nowSeen := nowSeen + {more[i]};
      nowRefs := nowRefs + [more[i]];
    }
    assert more[..|more|] == more;
  }

  /** The name stands first at that place. */
  predicate FirstAt(names: seq<string>, x: string, i: nat) {
    i < |names| && names[i] == x && forall j :: 0 <= j < i ==> names[j] != x
  }

  /** The names are kept in the order in which they first occur. */
  lemma {:induction false} DedupedInOrder(names: seq<string>, p: nat, q: nat) returns (i: nat, j: nat)
    requires p < q < |Deduped(names)|
    ensures i < j && FirstAt(names, Deduped(names)[p], i) && FirstAt(names, Deduped(names)[q], j)
  {
    var before, last := names[..|names| - 1], names[|names| - 1];
    if q < |Deduped(before)| {
      i, j := DedupedInOrder(before, p, q);
    } else {
      assert Deduped(before)[p] in Deduped(before);
      i := FirstOf(before, Deduped(before)[p]);
      j := |names| - 1;
    }
  }

  lemma FirstOf(names: seq<string>, x: string) returns (i: nat)
    requires x in names
    ensures FirstAt(names, x, i)
  {
    i := 0;
    while names[i] != x
      invariant i < |names| && forall j :: 0 <= j < i ==> names[j] != x
      decreases |names| - i
    {
      i := i + 1;
    }
  }

  /** The first reference that fails, if any. */
  function FirstFailure(names: seq<string>, secrets: Secrets): Option<Error> {
    if names == [] then None
    else
      var earlier := FirstFailure(names[..|names| - 1], secrets);
      if earlier.Some? then earlier else Failure(names[|names| - 1], secrets)
  }

  /** Resolution fails with the error of the first secret that has one, and with none if none has. */
  lemma {:induction false} FirstFailureIff(names: seq<string>, secrets: Secrets, e: Error)
    ensures FirstFailure(names, secrets) == Some(e) <==>
            exists k: nat :: k < |names| && Failure(names[k], secrets) == Some(e)
                             && forall j :: 0 <= j < k ==> Failure(names[j], secrets).None?
  {
    if names != [] {
      var before := names[..|names| - 1];
      FirstFailureIff(before, secrets, e);
      NoFailureIff(before, secrets);
    }
  }

  lemma {:induction false} NoFailureIff(names: seq<string>, secrets: Secrets)
    ensures FirstFailure(names, secrets).None? <==>
            forall j :: 0 <= j < |names| ==> Failure(names[j], secrets).None?
  {
    if names != [] {
      NoFailureIff(names[..|names| - 1], secrets);
    }
  }

  /** What a secret fails with, by what was fetched: missing, not fetched, or of a known type and not readable. */
  lemma FailureIs(name: string, secrets: Secrets)
    ensures secrets(name).NotFound? ==> Failure(name, secrets) == Some(SecretNotFound(name))
    ensures secrets(name).FetchFailed? ==> Failure(name, secrets) == Some(SecretFetchFailed(name))
    ensures secrets(name).Fetched? ==>
              var s := secrets(name).value;
              var text := if s.kind.Dockercfg? && s.json.Absent? then s.legacy else s.json;
              && (s.kind.OtherKind? ==> Failure(name, secrets) == None)
              && (!s.kind.OtherKind? ==>
                    (Failure(name, secrets) == None <==> text.Config? && |text.auths| > 0))
              && (Failure(name, secrets).Some? ==> Failure(name, secrets) == Some(SecretMalformed(name)))
  {
    assert forall m: map<string, Auth> :: m == map[] <==> |m| == 0;
  }

  /**
   * The entry of a registry and its mirror, by the text of the secret: the older format has no tokens,
   * and a registry without one gets the empty string.
   */
  lemma EntryAndMirrorAre(o: Origin, secrets: Secrets)
    requires Real(o, secrets)
    ensures var s := secrets(o.secret).value;
            var text := if s.kind.Dockercfg? && s.json.Absent? then s.legacy else s.json;
            && !s.kind.OtherKind? && text.Config? && o.registry in text.auths
            && EntryOf(o, secrets) == Placed(o.secret, o.registry, text.auths[o.registry])
            && MirrorOf(o, secrets).secret == o.secret && MirrorOf(o, secrets).registry == o.registry
            && MirrorOf(o, secrets).auth.password ==
               (if !(s.kind.Dockercfg? && s.json.Absent?) && o.registry in text.tokens
                then text.tokens[o.registry] else "")
  {
  }

  function AccountName(name: string): string {
    if name == "" then "default" else name
  }

  /** What resolveImagePullCredentials returns for the secrets of the pod and of its service account. */
  ghost predicate IsResolved(names: seq<string>, secrets: Secrets, r: Resolved) {
    match FirstFailure(names, secrets)
    case Some(e) => r == Failed(e)
    case None =>
      r == Resolved(
        if exists n :: n in names && Usable(n, secrets)
        then Store(Some(RingOf(Origins(names, secrets), secrets)), Some(MirrorRingOf(Origins(names, secrets), secrets)))
        else Store(None, None))
  }

  lemma OneMoreOrigin(before: seq<Origin>, o: Origin, secrets: Secrets)
    requires forall x :: x in before + [o] ==> Real(x, secrets)
    ensures Real(o, secrets) && forall x :: x in before ==> Real(x, secrets)
    ensures RingOf(before + [o], secrets) == RingOf(before, secrets) + [EntryOf(o, secrets)]
    ensures MirrorRingOf(before + [o], secrets) == MirrorRingOf(before, secrets) + [MirrorOf(o, secrets)]
  {
    assert o in before + [o];
  }

  /** The inner loop: both keyrings, one registry at a time. */
  method AddInStep(secret: string, p: Parsed, ring: Keyring, mirror: Keyring, ghost before: seq<Origin>,
      ghost secrets: Secrets)
    returns (nowRing: Keyring, nowMirror: Keyring)
    requires Usable(secret, secrets) && p == ParsedOf(secret, secrets)
    requires forall o :: o in before ==> Real(o, secrets)
    requires ring == RingOf(before, secrets) && mirror == MirrorRingOf(before, secrets)
    ensures var after := before + InSecret(secret, SortedOf(p.auths.Keys));
            && (forall o :: o in after ==> Real(o, secrets))
            && nowRing == RingOf(after, secrets) && nowMirror == MirrorRingOf(after, secrets)
  {
    nowRing, nowMirror := ring, mirror;
    var registries := SortStrings(p.auths.Keys);
    ghost var all := InSecret(secret, registries);
    ghost var done := before;
    for i := 0 to |registries|
      invariant done == before + all[..i]
      invariant forall o :: o in done ==> Real(o, secrets)
      invariant nowRing == RingOf(done, secrets) && nowMirror == MirrorRingOf(done, secrets)
    {
      var registry := registries[i];
      OneMoreOrigin(done, Origin(secret, registry), secrets);
      nowRing := nowRing + [Placed(secret, registry, p.auths[registry])];
      nowMirror := nowMirror + [Placed(secret, registry, Auth("", "", TokenOf(p, registry), ""))];
      done := done + [Origin(secret, registry)];
      Extend(before, all, i);
    }
    assert all[..|registries|] == all;
  }

  /** resolveImagePullCredentials. */
  method ResolveImagePullCredentials(
      podRefs: seq<string>, accountName: string, accounts: string -> Fetched<seq<string>>, secrets: Secrets)
    returns (r: Resolved)
    ensures var saName := if accountName == "" then "default" else accountName;
            match accounts(saName)
            case NotFound => r == Failed(AccountNotFound(saName))
            case FetchFailed => r == Failed(AccountFetchFailed(saName))
            case Fetched(refs) => IsResolved(Deduped(podRefs + refs), secrets, r)
  {
    var seen, names := AddUnseen(podRefs, {}, [], []);
    assert [] + podRefs == podRefs;
    var saName := AccountName(accountName);
    var accountRefs := [];
    match accounts(saName) {
      case NotFound => return Failed(AccountNotFound(saName));
      case FetchFailed => return Failed(AccountFetchFailed(saName));
      case Fetched(refs) => accountRefs := refs;
    }
    seen, names := AddUnseen(accountRefs, seen, names, podRefs);
    r := FillKeyrings(names, secrets);
  }

  /** The loop over the secrets. */
  method FillKeyrings(names: seq<string>, secrets: Secrets) returns (r: Resolved)
    ensures IsResolved(names, secrets, r)
  {
    var ring, mirror: Keyring := [], [];
    var hasCredentials := false;
    ghost var all := Origins(names[..0], secrets);
    for i := 0 to |names|
      invariant FirstFailure(names[..i], secrets) == None
      invariant hasCredentials <==> exists k :: 0 <= k < i && Usable(names[k], secrets)
      invariant all == Origins(names[..i], secrets)
      invariant ring == RingOf(all, secrets) && mirror == MirrorRingOf(all, secrets)
    {
      assert names[..i + 1][..i] == names[..i];
      match secrets(names[i]) {
        case NotFound =>
          LaterFailure(names, secrets, i);
          return Failed(SecretNotFound(names[i]));
        case FetchFailed =>
          LaterFailure(names, secrets, i);
          return Failed(SecretFetchFailed(names[i]));
        case Fetched(s) =>
          if s.kind.OtherKind? {
            continue;
          }
          var p := ParseImagePullSecret(s);
          if p.None? {
            LaterFailure(names, secrets, i);
            return Failed(SecretMalformed(names[i]));
          }
          ring, mirror := AddInStep(names[i], p.value, ring, mirror, all, secrets);
          all := all + InSecret(names[i], SortedOf(p.value.auths.Keys));
          hasCredentials := true;
      }
    }
    assert names[..|names|] == names;
    if !hasCredentials {
      return Resolved(Store(None, None));
    }
    return Resolved(Store(Some(ring), Some(mirror)));
  }

  /** The first failure does not depend on what comes after it. */
  lemma {:induction false} LaterFailure(names: seq<string>, secrets: Secrets, i: nat)
    requires i < |names| && FirstFailure(names[..i], secrets).None? && Failure(names[i], secrets).Some?
    ensures FirstFailure(names, secrets) == Failure(names[i], secrets)
    decreases |names|
  {
    var before := names[..|names| - 1];
    if i == |names| - 1 {
      assert before == names[..i];
    } else {
      assert before[..i] == names[..i];
      LaterFailure(before, secrets, i);
    }
  }

  // ---------------------------------------------------------------- lookup

  datatype Creds = Creds(server: string, username: string, password: string, identityToken: string)

  predicate IsEmpty(c: Creds) {
    c.username == "" && c.password == "" && c.identityToken == ""
  }

  /** The i-th match with the token that stands at the same position. */
  function Candidate(auths: seq<Placed>, tokens: seq<Placed>, i: nat): Creds
    requires i < |auths|
  {
    var a := auths[i].auth;
    Creds(a.server, a.username, a.password,
          if a.identityToken == "" && i < |tokens| then tokens[i].auth.password else a.identityToken)
  }

  function Served(c: Creds, domain: Option<string>): Creds {
    if c.server == "" && domain.Some? then c.(server := domain.value) else c
  }

  /** The first candidate that is not empty. */
  ghost predicate IsFirst(auths: seq<Placed>, tokens: seq<Placed>, i: nat) {
    && i < |auths| && !IsEmpty(Candidate(auths, tokens, i))
    && forall j :: 0 <= j < i ==> IsEmpty(Candidate(auths, tokens, j))
  }

  ghost predicate IsForImage(auths: seq<Placed>, tokens: seq<Placed>, domain: Option<string>, r: Option<Creds>) {
    match r
    case None => forall i :: 0 <= i < |auths| ==> IsEmpty(Candidate(auths, tokens, i))
    case Some(c) => exists i: nat :: IsFirst(auths, tokens, i) && c == Served(Candidate(auths, tokens, i), domain)
  }

  /** The token of the i-th match: its own, or else the one that stands at its position. */
  function TokenAt(auths: seq<Placed>, tokens: seq<Placed>, i: nat): string
    requires i < |auths|
  {
    if auths[i].auth.identityToken != "" then auths[i].auth.identityToken
    else if i < |tokens| then tokens[i].auth.password else ""
  }

  /** The i-th match has no user, no password and no token. */
  predicate Blank(auths: seq<Placed>, tokens: seq<Placed>, i: nat)
    requires i < |auths|
  {
    auths[i].auth.username == "" && auths[i].auth.password == "" && TokenAt(auths, tokens, i) == ""
  }

  predicate FirstNotBlank(auths: seq<Placed>, tokens: seq<Placed>, i: nat) {
    i < |auths| && !Blank(auths, tokens, i) && forall j :: 0 <= j < i ==> Blank(auths, tokens, j)
  }

  /** ForImage, from the matches of both keyrings. */
  method PickCredentials(auths: seq<Placed>, tokens: seq<Placed>, domain: Option<string>) returns (r: Option<Creds>)
    ensures IsForImage(auths, tokens, domain, r)
    ensures r.None? <==> forall i :: 0 <= i < |auths| ==> Blank(auths, tokens, i)
    ensures r.Some? ==>
              exists i: nat ::
                && FirstNotBlank(auths, tokens, i)
                && r.value.username == auths[i].auth.username && r.value.password == auths[i].auth.password
                && r.value.identityToken == TokenAt(auths, tokens, i)
                && r.value.server == if auths[i].auth.server == "" && domain.Some? then domain.value
                    else auths[i].auth.server
  {
    for i := 0 to |auths|
      invariant forall j :: 0 <= j < i ==> IsEmpty(Candidate(auths, tokens, j)) && Blank(auths, tokens, j)
    {
      var auth := auths[i].auth;
      var identityToken := auth.identityToken;
      if identityToken == "" && i < |tokens| {
        identityToken := tokens[i].auth.password;
      }
      var creds := Creds(auth.server, auth.username, auth.password, identityToken);
      if IsEmpty(creds) {
        continue;
      }
      if creds.server == "" && domain.Some? {
        creds := creds.(server := domain.value);
      }
      assert IsFirst(auths, tokens, i) && FirstNotBlank(auths, tokens, i);
      return Some(creds);
    }
    return None;
  }

  /** The matches that ForImage walks over: none without a keyring. */
  ghost function Matches(order: Order, ring: Option<Keyring>, image: string): seq<Placed>
    requires Positions(order)
  {
    if ring.None? then [] else Lookup(order, ring.value, image)
  }

  // ---------------------------------------------------------------- the pairing

  /** Both keyrings of a store list the same origins at the same positions. */
  ghost predicate Aligned(store: Store, origins: seq<Origin>, secrets: Secrets) {
    && (forall o :: o in origins ==> Real(o, secrets))
    && ((store == Store(None, None) && origins == [])
        || store == Store(Some(RingOf(origins, secrets)), Some(MirrorRingOf(origins, secrets))))
  }

  /** The registries of the origins, in their order. */
  function RegistryNames(origins: seq<Origin>): seq<string> {
    seq(|origins|, i requires 0 <= i < |origins| => origins[i].registry)
  }

  /** The origins that match the image, in the order of lookup. */
  ghost function Matched(order: Order, origins: seq<Origin>, image: string): (r: seq<Origin>)
    requires Positions(order)
    ensures forall o :: o in r ==> o in origins
  {
    var places := order(image, RegistryNames(origins));
    assert forall k :: 0 <= k < |places| ==> places[k] in places;
    seq(|places|, k requires 0 <= k < |places| => origins[places[k]])
  }

  /** The origins come secret by secret, in the order of the names, and within a secret by registry. */
  lemma {:induction false} OriginsInOrder(names: seq<string>, secrets: Secrets, p: nat, q: nat)
    requires forall i, j :: 0 <= i < j < |names| ==> names[i] != names[j]
    requires p < q < |Origins(names, secrets)|
    ensures var a, b := Origins(names, secrets)[p], Origins(names, secrets)[q];
            if a.secret == b.secret then Le(a.registry, b.registry) && a.registry != b.registry
            else exists i, j :: 0 <= i < j < |names| && names[i] == a.secret && names[j] == b.secret
  {
    var before, last := names[..|names| - 1], names[|names| - 1];
    var rest := Origins(before, secrets);
    if q < |rest| {
      OriginsInOrder(before, secrets, p, q);
      var a, b := rest[p], rest[q];
      if a.secret != b.secret {
        var i, j :| 0 <= i < j < |before| && before[i] == a.secret && before[j] == b.secret;
        assert names[i] == a.secret && names[j] == b.secret;
      }
    } else {
      var registries := SortedOf(ParsedOf(last, secrets).auths.Keys);
      assert Origins(names, secrets) == rest + InSecret(last, registries);
      if p < |rest| {
        assert rest[p] in rest;
        var i :| 0 <= i < |before| && before[i] == rest[p].secret;
        assert names[i] == rest[p].secret;
      }
    }
  }

  lemma ResolvedIsAligned(names: seq<string>, secrets: Secrets, store: Store)
    requires IsResolved(names, secrets, Resolved(store))
    ensures Aligned(store, Origins(names, secrets), secrets)
  {
    NothingUsable(names, secrets);
  }

  lemma {:induction false} NothingUsable(names: seq<string>, secrets: Secrets)
    ensures (forall n :: n in names ==> !Usable(n, secrets)) ==> Origins(names, secrets) == []
  {
    if names != [] {
      NothingUsable(names[..|names| - 1], secrets);
    }
  }

  /** The keyrings hold every registry entry of every usable secret that is listed, and nothing else. */
  lemma {:induction false} OriginsIff(names: seq<string>, secrets: Secrets, o: Origin)
    ensures o in Origins(names, secrets) <==> o.secret in names && Real(o, secrets)
  {
    if names != [] {
      var name := names[|names| - 1];
      OriginsIff(names[..|names| - 1], secrets, o);
      if o.secret == name && Real(o, secrets) {
        var registries := SortedOf(ParsedOf(name, secrets).auths.Keys);
        var i :| 0 <= i < |registries| && registries[i] == o.registry;
        assert InSecret(name, registries)[i] == o;
      }
    }
  }

  /**
   * For every image and every order of lookup, the two keyrings return the same number of matches,
   * and at each position the entry and the token of one and the same registry of one and the same secret.
   */
  lemma KeyringsAreAligned(order: Order, store: Store, origins: seq<Origin>, secrets: Secrets, image: string)
    requires Positions(order) && Aligned(store, origins, secrets)
    ensures var auths, tokens := Matches(order, store.keyring, image), Matches(order, store.tokenKeyring, image);
            var matched := Matched(order, origins, image);
            && |auths| == |tokens| == |matched|
            && forall k :: 0 <= k < |auths| ==>
                 && auths[k] == EntryOf(matched[k], secrets)
                 && tokens[k] == MirrorOf(matched[k], secrets)
  {
    if store.keyring.Some? {
      assert RegistriesOf(store.keyring.value) == RegistryNames(origins);
      assert RegistriesOf(store.tokenKeyring.value) == RegistryNames(origins);
    } else {
      var places := order(image, RegistryNames(origins));
      assert places != [] ==> places[0] in places;
    }
  }

  /** The credentials that one origin stands for: its entry with its own token. */
  ghost function OwnCreds(o: Origin, secrets: Secrets): Creds
    requires Real(o, secrets)
  {
    var p := ParsedOf(o.secret, secrets);
    var a := p.auths[o.registry];
    Creds(a.server, a.username, a.password, if a.identityToken == "" then TokenOf(p, o.registry) else a.identityToken)
  }

  lemma CandidatesAreOwn(order: Order, store: Store, origins: seq<Origin>, secrets: Secrets, image: string)
    requires Positions(order) && Aligned(store, origins, secrets)
    ensures var auths, tokens := Matches(order, store.keyring, image), Matches(order, store.tokenKeyring, image);
            var matched := Matched(order, origins, image);
            && |auths| == |matched|
            && forall k :: 0 <= k < |matched| ==>
                 && matched[k] in matched
                 && Candidate(auths, tokens, k) == OwnCreds(matched[k], secrets)
  {
    KeyringsAreAligned(order, store, origins, secrets, image);
    var matched := Matched(order, origins, image);
    forall k | 0 <= k < |matched|
      ensures matched[k] in matched
    {
    }
  }

  /** The first of the matching origins whose own credentials can be used. */
  ghost predicate IsFirstUsable(matched: seq<Origin>, secrets: Secrets, i: nat)
    requires forall o :: o in matched ==> Real(o, secrets)
  {
    && i < |matched| && !IsEmpty(OwnCreds(matched[i], secrets))
    && forall j :: 0 <= j < i ==> IsEmpty(OwnCreds(matched[j], secrets))
  }

  ghost predicate IsOwnPick(matched: seq<Origin>, secrets: Secrets, domain: Option<string>, r: Option<Creds>)
    requires forall o :: o in matched ==> Real(o, secrets)
  {
    match r
    case None => forall o :: o in matched ==> IsEmpty(OwnCreds(o, secrets))
    case Some(c) =>
      exists i: nat :: IsFirstUsable(matched, secrets, i) && c == Served(OwnCreds(matched[i], secrets), domain)
  }

  lemma PickIsOwn(
      auths: seq<Placed>, tokens: seq<Placed>, matched: seq<Origin>, secrets: Secrets, domain: Option<string>,
          r: Option<Creds>)
    requires forall o :: o in matched ==> Real(o, secrets)
    requires |auths| == |matched|
    requires forall k :: 0 <= k < |matched| ==>
               && matched[k] in matched
               && Candidate(auths, tokens, k) == OwnCreds(matched[k], secrets)
    requires IsForImage(auths, tokens, domain, r)
    ensures IsOwnPick(matched, secrets, domain, r)
  {
    if r.Some? {
      var i: nat :| IsFirst(auths, tokens, i) && r.value == Served(Candidate(auths, tokens, i), domain);
      assert IsFirstUsable(matched, secrets, i);
    }
  }

  /**
   * ForImage returns the credentials and the token of one registry entry of one secret, the first
   * match that has any; it returns nothing only when no match has any.
   */
  lemma ForImageNeverMixes(
      order: Order, names: seq<string>, secrets: Secrets, store: Store,
      image: string, domain: Option<string>, r: Option<Creds>)
    requires Positions(order) && IsResolved(names, secrets, Resolved(store))
    requires IsForImage(Matches(order, store.keyring, image), Matches(order, store.tokenKeyring, image), domain, r)
    ensures IsOwnPick(Matched(order, Origins(names, secrets), image), secrets, domain, r)
  {
    var auths, tokens := Matches(order, store.keyring, image), Matches(order, store.tokenKeyring, image);
    ResolvedIsAligned(names, secrets, store);
    CandidatesAreOwn(order, store, Origins(names, secrets), secrets, image);
    PickIsOwn(auths, tokens, Matched(order, Origins(names, secrets), image), secrets, domain, r);
  }
}
