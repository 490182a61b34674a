/** pkg/decision/input and pkg/invariants: the deterministic floor. */
module Invariants {
  import opened Text

  /** String folding and the host of a URL or host:port, as arbitrary functions. */
  datatype Folding = Folding(lower: string -> string, trim: string -> string, host: string -> string,
                             personal: string -> bool)

  datatype Declared = Declared(purpose: string, decisionType: string, allowedClasses: seq<string>,
                               allowedDestinations: seq<string>) {
    predicate IsZero() {
      purpose == "" && decisionType == "" && allowedClasses == [] && allowedDestinations == []
    }
  }

  datatype Observed = Observed(destination: string, dataClasses: seq<string>, scanIncomplete: bool)

  datatype Input = Input(declared: Declared, observed: Observed)

  datatype Context = Context(receiptsRequired: bool, writerAvailable: bool)

  /** INV-01 to INV-06. */
  datatype Id = Credentials | Egress | PersonalDest | ClassSubset | Receipts | ScanComplete

  const ALL: seq<Id> := [Credentials, Egress, PersonalDest, ClassSubset, Receipts, ScanComplete]

  // ------------------------------------------------- what the source checks

  /** hostAllowed for one pattern. */
  predicate Matches(f: Folding, host: string, pattern: string) {
    var p := f.lower(f.trim(pattern));
    if p == "" then false
    else if |p| >= 2 && p[..2] == "*." then
      var suffix := p[1..];
      |host| > |suffix| && host[|host| - |suffix|..] == suffix
    else host == p
  }

  predicate HostAllowed(f: Folding, host: string, patterns: seq<string>) {
    patterns != [] && (HostAllowed(f, host, patterns[..|patterns| - 1]) || Matches(f, host, patterns[|patterns| - 1]))
  }

  predicate DestinationDeclared(f: Folding, i: Input) {
    var host := f.host(i.observed.destination);
    host == "" || HostAllowed(f, host, i.declared.allowedDestinations)
  }

  predicate DestinationViolation(f: Folding, i: Input) {
    !i.declared.IsZero() && !DestinationDeclared(f, i)
  }

  function AllowedSet(f: Folding, classes: seq<string>): set<string> {
    set k | 0 <= k < |classes| :: f.lower(f.trim(classes[k]))
  }

  /** UndeclaredDataClasses, unsorted. */
  function Undeclared(f: Folding, i: Input): seq<string> {
    if i.declared.IsZero() then []
    else Outside(f, i.observed.dataClasses, AllowedSet(f, i.declared.allowedClasses))
  }

  function Outside(f: Folding, classes: seq<string>, allowed: set<string>): seq<string> {
    if classes == [] then []
    else
      var last := classes[|classes| - 1];
      Outside(f, classes[..|classes| - 1], allowed) + if f.lower(last) in allowed then [] else [last]
  }

  function Personal(f: Folding, classes: seq<string>): seq<string> {
    if classes == [] then []
    else
      var last := classes[|classes| - 1];
      Personal(f, classes[..|classes| - 1]) + if f.personal(last) then [f.lower(last)] else []
  }

  predicate HasCredential(f: Folding, classes: seq<string>) {
    exists k | 0 <= k < |classes| :: f.lower(classes[k]) == "credential"
  }

  /** The check of one invariant: true when it denies. */
  predicate Violates(f: Folding, id: Id, i: Input, ctx: Context) {
    match id
    case Credentials => HasCredential(f, i.observed.dataClasses)
    case Egress => DestinationViolation(f, i)
    case PersonalDest => !i.declared.IsZero() && !DestinationDeclared(f, i) && Personal(f, i.observed.dataClasses) != []
    case ClassSubset => Undeclared(f, i) != []
    case Receipts => ctx.receiptsRequired && !ctx.writerAvailable
    case ScanComplete => i.observed.scanIncomplete
  }

  function Violations(f: Folding, i: Input, ctx: Context, ids: seq<Id>): seq<Id> {
    if ids == [] then []
    else
      var last := ids[|ids| - 1];
      Violations(f, i, ctx, ids[..|ids| - 1]) + if Violates(f, last, i, ctx) then [last] else []
  }

  /** Check: the loop over all invariants in order. */
  method Check(f: Folding, i: Input, ctx: Context) returns (out: seq<Id>)
    ensures out == Violations(f, i, ctx, ALL)
    ensures out == [] <==> Satisfies(f, i, ctx)
    ensures forall id :: id in out <==> Broken(f, id, i, ctx)
  {
    out := [];
    for n := 0 to |ALL|
      invariant out == Violations(f, i, ctx, ALL[..n])
    {
      assert ALL[..n + 1][..n] == ALL[..n];
      if Violates(f, ALL[n], i, ctx) {
        out := out + [ALL[n]];
      }
    }
    assert ALL[..|ALL|] == ALL;
    EmptyIffSatisfied(f, i, ctx);
    FindingsIff(f, i, ctx);
    hide Violations, Satisfies, Broken;
  }

  // --------------------------------------------------- what the checks mean

  /** The host is sub, a dot, and then the domain. */
  predicate IsUnder(host: string, sub: string, domain: string) {
    sub != "" && host == sub + "." + domain
  }

  /** A folded pattern admits a host: without a leading "*." it names the host
      itself, with one it names every proper subdomain of what follows. */
  ghost predicate Admits(host: string, p: string) {
    && p != ""
    && ((!("*." <= p) && host == p) || exists sub, domain :: p == "*." + domain && IsUnder(host, sub, domain))
  }

  /** The host lies inside the declared destinations. */
  ghost predicate Reaches(f: Folding, host: string, patterns: seq<string>) {
    exists k | 0 <= k < |patterns| :: Admits(host, f.lower(f.trim(patterns[k])))
  }

  /** The class is one of the declared ones. */
  ghost predicate Declares(f: Folding, classes: seq<string>, c: string) {
    exists k | 0 <= k < |classes| :: f.lower(f.trim(classes[k])) == f.lower(c)
  }

  /** What the six invariants promise of an action that none of them denies. */
  ghost predicate Satisfies(f: Folding, i: Input, ctx: Context) {
    var host, classes := f.host(i.observed.destination), i.observed.dataClasses;
    && (forall k | 0 <= k < |classes| :: f.lower(classes[k]) != "credential")
    && (i.declared == Declared("", "", [], []) || (
          && (host == "" || Reaches(f, host, i.declared.allowedDestinations))
          && forall k | 0 <= k < |classes| :: Declares(f, i.declared.allowedClasses, classes[k])))
    && (ctx.receiptsRequired ==> ctx.writerAvailable)
    && !i.observed.scanIncomplete
  }

  /** A text ends in "." + domain after something exactly when it lies under it. */
  lemma {:induction false} UnderIff(host: string, domain: string)
    ensures (|host| > |domain| + 1 && host[|host| - |domain| - 1..] == "." + domain) <==>
            exists sub :: IsUnder(host, sub, domain)
  {
    if |host| > |domain| + 1 && host[|host| - |domain| - 1..] == "." + domain {
      assert host == host[..|host| - |domain| - 1] + "." + domain;
      assert IsUnder(host, host[..|host| - |domain| - 1], domain);
    }
    forall sub | IsUnder(host, sub, domain)
      ensures |host| > |domain| + 1 && host[|host| - |domain| - 1..] == "." + domain
    {
      assert host == sub + ("." + domain);
    }
  }

  lemma {:induction false} MatchesIff(f: Folding, host: string, pattern: string)
    ensures Matches(f, host, pattern) <==> Admits(host, f.lower(f.trim(pattern)))
  {
    var p := f.lower(f.trim(pattern));
    hide IsUnder;
    if "*." <= p {
      var domain := p[2..];
      assert p == "*." + domain && p[1..] == "." + domain;
      assert forall tail | p == "*." + tail :: tail == domain by {
        forall tail | p == "*." + tail
          ensures tail == domain
        {
          assert p[2..] == tail;
        }
      }
      UnderIff(host, domain);
    }
  }

  /** The loop over the patterns accepts exactly the hosts that one of them admits. */
  lemma {:induction false} HostAllowedIff(f: Folding, host: string, patterns: seq<string>)
    ensures HostAllowed(f, host, patterns) <==> Reaches(f, host, patterns)
  {
    hide Matches, Admits;
    if patterns != [] {
      HostAllowedIff(f, host, patterns[..|patterns| - 1]);
      MatchesIff(f, host, patterns[|patterns| - 1]);
      assert forall k | 0 <= k < |patterns| - 1 :: patterns[..|patterns| - 1][k] == patterns[k];
    }
  }

  lemma {:induction false} AllowedIff(f: Folding, allowed: seq<string>, c: string)
    ensures f.lower(c) in AllowedSet(f, allowed) <==> Declares(f, allowed, c)
  {
  }

  lemma {:induction false} OutsideEmptyIff(f: Folding, classes: seq<string>, allowed: set<string>)
    ensures Outside(f, classes, allowed) == [] <==> forall k | 0 <= k < |classes| :: f.lower(classes[k]) in allowed
  {
    if classes != [] {
      OutsideEmptyIff(f, classes[..|classes| - 1], allowed);
      assert forall k | 0 <= k < |classes| - 1 :: classes[..|classes| - 1][k] == classes[k];
    }
  }

  lemma {:induction false} ViolationsMembers(f: Folding, i: Input, ctx: Context, ids: seq<Id>)
    ensures forall id :: id in Violations(f, i, ctx, ids) <==> id in ids && Violates(f, id, i, ctx)
  {
    hide Violates;
    if ids != [] {
      ViolationsMembers(f, i, ctx, ids[..|ids| - 1]);
      assert ids == ids[..|ids| - 1] + [ids[|ids| - 1]];
    }
  }

  lemma {:induction false} EmptyIffNoneViolated(f: Folding, i: Input, ctx: Context)
    ensures Violations(f, i, ctx, ALL) == [] <==> forall id: Id :: !Violates(f, id, i, ctx)
  {
    hide Violates, Violations;
    ViolationsMembers(f, i, ctx, ALL);
    var vs := Violations(f, i, ctx, ALL);
    if vs != [] {
      assert vs[0] in vs;
    }
    forall id: Id
      ensures id in ALL
    {
      EveryIdListed(id);
    }
  }

  lemma {:induction false} DestinationDeclaredIff(f: Folding, i: Input)
    ensures DestinationDeclared(f, i) <==>
            var host := f.host(i.observed.destination);
            host == "" || Reaches(f, host, i.declared.allowedDestinations)
  {
    HostAllowedIff(f, f.host(i.observed.destination), i.declared.allowedDestinations);
    hide HostAllowed, Reaches;
  }

  lemma {:induction false} ClassesDeclaredIff(f: Folding, i: Input)
    ensures Undeclared(f, i) == [] <==>
            i.declared == Declared("", "", [], []) ||
            forall k | 0 <= k < |i.observed.dataClasses| ::
              Declares(f, i.declared.allowedClasses, i.observed.dataClasses[k])
  {
    var classes, allowed := i.observed.dataClasses, i.declared.allowedClasses;
    OutsideEmptyIff(f, classes, AllowedSet(f, allowed));
    forall c
      ensures f.lower(c) in AllowedSet(f, allowed) <==> Declares(f, allowed, c)
    {
      AllowedIff(f, allowed, c);
    }
    hide Outside, AllowedSet, Declares;
  }

  /** No invariant denies exactly when the action carries no credential, was
      scanned in full, has the receipt writer it needs, and stays inside the
      declared destinations and classes, if anything was declared. */
  lemma {:induction false} EmptyIffSatisfied(f: Folding, i: Input, ctx: Context)
    ensures Violations(f, i, ctx, ALL) == [] <==> Satisfies(f, i, ctx)
  {
    EmptyIffNoneViolated(f, i, ctx);
    DestinationDeclaredIff(f, i);
    ClassesDeclaredIff(f, i);
    hide Violations, DestinationDeclared, Undeclared, Reaches, Declares, Personal;
    assert Satisfies(f, i, ctx) <==>
           !Violates(f, Credentials, i, ctx) && !Violates(f, Egress, i, ctx) && !Violates(f, ClassSubset, i, ctx) &&
           !Violates(f, Receipts, i, ctx) && !Violates(f, ScanComplete, i, ctx);
  }

  /** What each finding reports. */
  ghost predicate Broken(f: Folding, id: Id, i: Input, ctx: Context) {
    var host, classes := f.host(i.observed.destination), i.observed.dataClasses;
    var away := i.declared != Declared("", "", [], []) && host != "" &&
      !Reaches(f, host, i.declared.allowedDestinations);
    match id
    case Credentials => exists k | 0 <= k < |classes| :: f.lower(classes[k]) == "credential"
    case Egress => away
    case PersonalDest => away && exists k | 0 <= k < |classes| :: f.personal(classes[k])
    case ClassSubset =>
      && i.declared != Declared("", "", [], [])
      && exists k | 0 <= k < |classes| :: !Declares(f, i.declared.allowedClasses, classes[k])
    case Receipts => ctx.receiptsRequired && !ctx.writerAvailable
    case ScanComplete => i.observed.scanIncomplete
  }

  lemma {:induction false} PersonalIff(f: Folding, classes: seq<string>)
    ensures Personal(f, classes) != [] <==> exists k | 0 <= k < |classes| :: f.personal(classes[k])
  {
    if classes != [] {
      PersonalIff(f, classes[..|classes| - 1]);
      assert forall k | 0 <= k < |classes| - 1 :: classes[..|classes| - 1][k] == classes[k];
    }
  }

  /** Each finding is reported exactly when what it says is so. */
  lemma {:induction false} FindingsIff(f: Folding, i: Input, ctx: Context)
    ensures forall id :: id in Violations(f, i, ctx, ALL) <==> Broken(f, id, i, ctx)
  {
    ViolationsMembers(f, i, ctx, ALL);
    DestinationDeclaredIff(f, i);
    ClassesDeclaredIff(f, i);
    PersonalIff(f, i.observed.dataClasses);
    hide Violations, DestinationDeclared, Undeclared, Reaches, Declares, Personal;
    forall id
      ensures id in Violations(f, i, ctx, ALL) <==> Broken(f, id, i, ctx)
    {
      EveryIdListed(id);
    }
  }

  lemma {:induction false} EveryIdListed(id: Id)
    ensures id in ALL
  {
    match id
    case Credentials => assert ALL[0] == id;
    case Egress => assert ALL[1] == id;
    case PersonalDest => assert ALL[2] == id;
    case ClassSubset => assert ALL[3] == id;
    case Receipts => assert ALL[4] == id;
    case ScanComplete => assert ALL[5] == id;
  }

  /** INV-03 never denies alone: whenever it fires INV-02 fires too, so with
      INV-02 in the set it only adds a reason. */
  lemma {:induction false} PersonalDestIsRedundant(f: Folding, i: Input, ctx: Context)
    ensures PersonalDest in Violations(f, i, ctx, ALL) ==> Egress in Violations(f, i, ctx, ALL)
  {
    ViolationsMembers(f, i, ctx, ALL);
    hide Violations;
    assert ALL[1] == Egress;
  }

  /** Nothing in the receipt context touches another invariant: losing the writer
      adds INV-05 and removes nothing. */
  lemma {:induction false} LosingTheWriterOnlyAdds(f: Folding, i: Input, ctx: Context, id: Id)
    ensures id in Violations(f, i, Context(true, false), ALL) <==>
            id == Receipts || id in Violations(f, i, Context(true, true), ALL)
  {
    ViolationsMembers(f, i, Context(true, false), ALL);
    ViolationsMembers(f, i, Context(true, true), ALL);
    hide Violations;
    assert ALL[4] == Receipts;
  }
}
