/**
 * The webhook's certificates (sysbox-admission/admission/certs.go, cert_health.go): issuing,
 * judging their health, and what one reconciliation makes of what it finds.
 *
 * Keys are abstract, a certificate records which key signed it, and PEM text is what it decodes
 * to. Instants and durations count nanoseconds; certificates keep whole seconds only.
 */
module Certificates {

  import opened Wrappers

  /** `strong` is a key long enough for the library to sign and verify with it. */
  datatype Key = Key(id: nat, strong: bool)

  const SECOND: int := 1_000_000_000
  const MINUTE: int := 60 * SECOND
  const LEAF_VALIDITY: int := 365 * 24 * 60 * MINUTE
  const CA_VALIDITY: int := 10 * LEAF_VALIDITY

  /**
   * `publicKey` is absent when it is not an RSA key. The last four fields restrict what the
   * certificate is good for: `serverAuth` is off only if its extended key usages leave that one
   * out, `unknownCritical` is a critical extension that the library does not know.
   */
  datatype Cert = Cert(
    subject: string, issuer: string, publicKey: Option<Key>, signer: Key,
    notBefore: int, notAfter: int,
    basicConstraintsValid: bool, isCa: bool, certSign: bool,
    dnsNames: set<string>,
    serverAuth: bool, unknownCritical: bool, permitted: seq<string>, excluded: seq<string>)

  /**
   * What the first block of a PEM text decodes to; an absent text is junk. `standard` says that
   * the block has the usual label, which parsing ignores and loading a key pair insists on.
   */
  datatype Pem = Junk | CertPem(cert: Cert, standard: bool) | KeyPem(key: Key, standard: bool)

  function ParseCert(p: Pem): Option<Cert> {
    if p.CertPem? then Some(p.cert) else None
  }

  function ParseKey(p: Pem): Option<Key> {
    if p.KeyPem? then Some(p.key) else None
  }

  /** The data of a Secret: certificate and private key. */
  datatype Data = Data(cert: Pem, key: Pem)

  const NO_DATA := Data(Junk, Junk)

  datatype Config = Config(serviceName: string, namespace: string, renewalWindow: int)

  function DnsNames(c: Config): seq<string> {
    [c.serviceName,
     c.serviceName + "." + c.namespace,
     c.serviceName + "." + c.namespace + ".svc",
     c.serviceName + "." + c.namespace + ".svc.cluster.local"]
  }

  // ---------------------------------------------------------------- health

  datatype Action = Healthy | RotateLeaf | RotateBundle

  /** certTimeHealthy */
  predicate TimeHealthy(cert: Cert, now: int, window: int) {
    cert.notBefore <= now && now < cert.notAfter && now + window < cert.notAfter
  }

  predicate HasSuffix(s: string, suffix: string) {
    |suffix| <= |s| && s[|s| - |suffix|..] == suffix
  }

  /** A name constraint covers its own domain and, or with a leading dot only, those below it. */
  predicate Covers(constraint: string, name: string) {
    if constraint == "" then true
    else if constraint[0] == '.' then |constraint| < |name| && HasSuffix(name, constraint)
    else name == constraint || HasSuffix(name, "." + constraint)
  }

  /** The CA's name constraints let it vouch for the name. */
  predicate Permits(ca: Cert, name: string) {
    && (forall i :: 0 <= i < |ca.excluded| ==> !Covers(ca.excluded[i], name))
    && (ca.permitted == [] || exists i :: 0 <= i < |ca.permitted| && Covers(ca.permitted[i], name))
  }

  /** A chain from the leaf to the CA, the only root; a CA is its own chain. */
  predicate Chains(leaf: Cert, ca: Cert) {
    || leaf == ca
    || (&& leaf.issuer == ca.subject && ca.publicKey == Some(leaf.signer) && leaf.signer.strong
        && ca.serverAuth && !ca.unknownCritical && forall n <- leaf.dnsNames :: Permits(ca, n))
  }

  /** The part of verification that does not depend on the time. */
  predicate Binds(leaf: Cert, ca: Cert, dnsName: string) {
    Chains(leaf, ca) && dnsName in leaf.dnsNames && leaf.serverAuth && !leaf.unknownCritical
  }

  /** Certificate verification with the CA as only root, for one host name. */
  predicate Verifies(leaf: Cert, ca: Cert, dnsName: string, now: int) {
    && Binds(leaf, ca, dnsName)
    && leaf.notBefore <= now <= leaf.notAfter && ca.notBefore <= now <= ca.notAfter
  }

  method LeafVerifies(leaf: Cert, ca: Cert, c: Config, now: int) returns (r: bool)
    ensures r <==> VerifiesForAll(leaf, ca, c, now)
  {
    var names := DnsNames(c);
    var i := 0;
    while i < |names|
      invariant 0 <= i <= |names|
      invariant forall k :: 0 <= k < i ==> Verifies(leaf, ca, names[k], now)
    {
      if !Verifies(leaf, ca, names[i], now) {
        return false;
      }
      i := i + 1;
    }
    return true;
  }

  /** leafVerifiesAgainstCA */
  predicate VerifiesForAll(leaf: Cert, ca: Cert, c: Config, now: int) {
    forall i :: 0 <= i < |DnsNames(c)| ==> Verifies(leaf, ca, DnsNames(c)[i], now)
  }

  /** EvaluateCertificateHealth */
  function Evaluate(ca: Data, tls: Data, c: Config, now: int): Action {
    var caCert, caKey := ParseCert(ca.cert), ParseKey(ca.key);
    if caCert.None? then RotateBundle
    else if !TimeHealthy(caCert.value, now, c.renewalWindow)
      || !caCert.value.basicConstraintsValid || !caCert.value.isCa || !caCert.value.certSign then RotateBundle
    else if caKey.None? then RotateBundle
    else if caCert.value.publicKey != caKey then RotateBundle
    else
      var leaf, leafKey := ParseCert(tls.cert), ParseKey(tls.key);
      if leaf.None? then RotateLeaf
      else if !TimeHealthy(leaf.value, now, c.renewalWindow) then RotateLeaf
      else if leafKey.None? then RotateLeaf
      else if leaf.value.publicKey != leafKey then RotateLeaf
      else if !VerifiesForAll(leaf.value, caCert.value, c, now) then RotateLeaf
      else Healthy
  }

  // ---------------------------------------------------------------- issuing

  /** Certificates store their bounds in whole seconds. */
  function WholeSeconds(t: int): (r: int)
    ensures r <= t < r + SECOND
  {
    t - t % SECOND
  }

  /** The CA part of GenerateCertificateBundle; its own leaf is not used by the caller. */
  function IssueCa(c: Config, now: int, keyId: nat): Option<Data> {
    if c.serviceName == "" || c.namespace == "" then None
    else
      var name, key := "sysbox-admission-webhook-ca", Key(keyId, true);
      var cert := Cert(name, name, Some(key), key, WholeSeconds(now - MINUTE), WholeSeconds(now + CA_VALIDITY),
                       true, true, true, {}, true, false, [], []);
      Some(Data(CertPem(cert, true), KeyPem(key, true)))
  }

  /** GenerateTLSCertificate: signing needs a strong key that is that of the CA certificate. */
  function IssueLeaf(c: Config, ca: Data, now: int, keyId: nat): Option<Data> {
    if c.serviceName == "" || c.namespace == "" then None
    else
      var caCert, caKey := ParseCert(ca.cert), ParseKey(ca.key);
      if caCert.None? || caKey.None? || caCert.value.publicKey != caKey || !caKey.value.strong then None
      else
        var key := Key(keyId, true);
        var cert := Cert(c.serviceName, caCert.value.subject, Some(key), caKey.value,
                         WholeSeconds(now - MINUTE), WholeSeconds(now + LEAF_VALIDITY),
                         false, false, false, set n | n in DnsNames(c), true, false, [], []);
        Some(Data(CertPem(cert, true), KeyPem(key, true)))
  }

  // ---------------------------------------------------------------- one reconciliation

  /** The clock readings of a run and the keys it draws. */
  datatype Run = Run(checked: int, caIssued: int, leafIssued: int, caKey: nat, leafKey: nat) {
    predicate Valid() {
      checked <= caIssued <= leafIssued
    }
  }

  /** The Secrets, as stored. */
  datatype Secrets = Secrets(ca: Option<Data>, tls: Option<Data>)

  datatype Certs = Certs(ca: Data, tls: Data)

  /** readCertificateResources: nothing without a CA Secret; a missing TLS Secret reads as no data. */
  function Found(s: Secrets): Option<Certs> {
    if s.ca.None? then None
    else Some(Certs(s.ca.value, if s.tls.Some? then s.tls.value else NO_DATA))
  }

  function NewBundle(c: Config, run: Run): Option<Certs> {
    var ca := IssueCa(c, run.caIssued, run.caKey);
    if ca.None? then None
    else
      var tls := IssueLeaf(c, ca.value, run.leafIssued, run.leafKey);
      if tls.None? then None else Some(Certs(ca.value, tls.value))
  }

  function NewLeaf(c: Config, ca: Data, run: Run): Option<Certs> {
    var tls := IssueLeaf(c, ca, run.leafIssued, run.leafKey);
    if tls.None? then None else Some(Certs(ca, tls.value))
  }

  /** What the stored Secrets call for. */
  function ActionFor(c: Config, s: Secrets, now: int): Action {
    var found := Found(s);
    if found.None? then RotateBundle else Evaluate(found.value.ca, found.value.tls, c, now)
  }

  /** What ensureCertificateResources arrives at when nobody interferes; none on an error. */
  function Reconcile(c: Config, s: Secrets, run: Run): Option<Certs> {
    match ActionFor(c, s, run.checked)
    case Healthy => Found(s)
    case RotateLeaf =>
      if ParseKey(Found(s).value.ca.key).None? then NewBundle(c, run) else NewLeaf(c, Found(s).value.ca, run)
    case RotateBundle => NewBundle(c, run)
  }

  // ---------------------------------------------------------------- how long health lasts

  /** The renewal window of a certificate is not open yet, nor has the certificate expired. */
  predicate InTime(cert: Cert, now: int, window: int) {
    now < cert.notAfter && now + window < cert.notAfter
  }

  predicate BothInTime(s: Certs, now: int, window: int) {
    && s.ca.cert.CertPem? && InTime(s.ca.cert.cert, now, window)
    && s.tls.cert.CertPem? && InTime(s.tls.cert.cert, now, window)
  }

  /** From `since` on, the set is healthy exactly while no renewal window is open, if `vouched`. */
  ghost predicate HealthySince(c: Config, s: Certs, since: int, vouched: bool) {
    forall now :: since <= now ==>
      (Evaluate(s.ca, s.tls, c, now).Healthy? <==> vouched && BothInTime(s, now, c.renewalWindow))
  }

  /** The leaf is bound to the CA for all the service's names. */
  predicate Bound(s: Certs, c: Config) {
    && s.ca.cert.CertPem? && s.tls.cert.CertPem?
    && forall i :: 0 <= i < |DnsNames(c)| ==> Binds(s.tls.cert.cert, s.ca.cert.cert, DnsNames(c)[i])
  }

  /** The CA's own restrictions let it vouch for all the service's names. */
  predicate Vouches(ca: Cert, c: Config) {
    && ca.serverAuth && !ca.unknownCritical
    && forall i :: 0 <= i < |DnsNames(c)| ==> Permits(ca, DnsNames(c)[i])
  }

  /** The CA half of a healthy set, seen from a later instant. */
  predicate UsableCa(ca: Data, since: int) {
    && ca.cert.CertPem? && ca.key.KeyPem? && ca.cert.cert.publicKey == Some(ca.key.key)
    && ca.cert.cert.basicConstraintsValid && ca.cert.cert.isCa && ca.cert.cert.certSign
    && ca.cert.cert.notBefore <= since
  }

  /** The leaf half, but for its binding to the CA. */
  predicate UsableLeaf(tls: Data, since: int) {
    && tls.cert.CertPem? && tls.key.KeyPem? && tls.cert.cert.publicKey == Some(tls.key.key)
    && tls.cert.cert.notBefore <= since
  }

  /** The bundle is renewed exactly for its CA, the leaf exactly for itself, and else nothing. */
  lemma ActionMeans(ca: Data, tls: Data, c: Config, now: int)
    ensures var goodCa := UsableCa(ca, now) && InTime(ca.cert.cert, now, c.renewalWindow);
            var goodLeaf := && UsableLeaf(tls, now) && InTime(tls.cert.cert, now, c.renewalWindow)
                            && Bound(Certs(ca, tls), c);
            Evaluate(ca, tls, c, now) == if !goodCa then RotateBundle else if !goodLeaf then RotateLeaf else Healthy
  {
    assert DnsNames(c)[0] == c.serviceName;
  }

  /** A leaf is rotated only after the CA's key was read and found to match its certificate. */
  lemma LeafRotationHasUsableCa(ca: Data, tls: Data, c: Config, now: int)
    requires Evaluate(ca, tls, c, now).RotateLeaf?
    ensures UsableCa(ca, now) && InTime(ca.cert.cert, now, c.renewalWindow)
  {
    ActionMeans(ca, tls, c, now);
  }

  /** Halves that are usable by themselves make a set whose health is a matter of binding and time. */
  lemma HealthOfUsable(c: Config, s: Certs, since: int)
    requires UsableCa(s.ca, since) && UsableLeaf(s.tls, since)
    ensures HealthySince(c, s, since, Bound(s, c))
  {
    forall now | since <= now
      ensures Evaluate(s.ca, s.tls, c, now).Healthy? <==> Bound(s, c) && BothInTime(s, now, c.renewalWindow)
    {
      ActionMeans(s.ca, s.tls, c, now);
    }
  }

  /** Health lasts exactly until the first renewal window opens. */
  lemma HealthLasts(c: Config, s: Certs, since: int)
    requires Evaluate(s.ca, s.tls, c, since).Healthy?
    ensures Bound(s, c) && HealthySince(c, s, since, true)
  {
    ActionMeans(s.ca, s.tls, c, since);
    HealthOfUsable(c, s, since);
  }

  /** A new leaf can be issued exactly under a strong key, and is bound exactly if the CA vouches. */
  lemma FreshLeaf(c: Config, ca: Data, leafIssued: int, keyId: nat)
    requires UsableCa(ca, leafIssued) && c.serviceName != "" && c.namespace != ""
    ensures var tls := IssueLeaf(c, ca, leafIssued, keyId);
            && (tls.Some? <==> ca.key.key.strong)
            && (tls.Some? ==>
                  && UsableLeaf(tls.value, leafIssued)
                  && tls.value.cert.cert.notAfter == WholeSeconds(leafIssued + LEAF_VALIDITY)
                  && (Bound(Certs(ca, tls.value), c) <==> Vouches(ca.cert.cert, c))
                  && HealthySince(c, Certs(ca, tls.value), leafIssued, Vouches(ca.cert.cert, c)))
  {
    var tls := IssueLeaf(c, ca, leafIssued, keyId);
    if tls.Some? {
      var leaf, root := tls.value.cert.cert, ca.cert.cert;
      FreshLeafIsNotItsCa(ca, leaf);
      assert Vouches(root, c)
        <==> root.serverAuth && !root.unknownCritical && forall n <- leaf.dnsNames :: Permits(root, n);
      assert DnsNames(c)[0] in leaf.dnsNames;
      HealthOfUsable(c, Certs(ca, tls.value), leafIssued);
    }
  }

  lemma FreshLeafIsNotItsCa(ca: Data, leaf: Cert)
    requires ca.cert.CertPem? && ca.cert.cert.isCa && !leaf.isCa
    ensures leaf != ca.cert.cert
  {
  }

  /** A new bundle can always be issued and its CA vouches for everything. */
  lemma FreshBundle(c: Config, run: Run)
    requires run.Valid() && c.serviceName != "" && c.namespace != ""
    ensures var bundle := NewBundle(c, run);
            && bundle.Some? && UsableCa(bundle.value.ca, run.leafIssued) && UsableLeaf(bundle.value.tls, run.leafIssued)
            && bundle.value.ca.cert.cert.notAfter == WholeSeconds(run.caIssued + CA_VALIDITY)
            && bundle.value.tls.cert.cert.notAfter == WholeSeconds(run.leafIssued + LEAF_VALIDITY)
            && HealthySince(c, bundle.value, run.leafIssued, true)
  {
    var ca := IssueCa(c, run.caIssued, run.caKey).value;
    FreshLeaf(c, ca, run.leafIssued, run.leafKey);
  }

  // ---------------------------------------------------------------- stabilisation

  /** The stored CA key can sign, where it is asked to. */
  predicate CanSign(c: Config, s: Secrets, now: int) {
    ActionFor(c, s, now).RotateLeaf? && s.ca.value.key.KeyPem? ==> s.ca.value.key.key.strong
  }

  /** The stored CA vouches for the service's names, where a leaf is issued under it. */
  predicate CanVouch(c: Config, s: Secrets, now: int) {
    ActionFor(c, s, now).RotateLeaf? && s.ca.value.cert.CertPem? ==> Vouches(s.ca.value.cert.cert, c)
  }

  /**
   * From whatever the Secrets hold, an undisturbed reconciliation succeeds exactly if the stored
   * CA can sign where it is kept; and the set it arrives at is healthy from then on until the
   * first renewal window opens, exactly if that CA vouches for the service's names, and otherwise
   * never.
   */
  lemma ReconcileStabilisesIff(c: Config, s: Secrets, run: Run)
    requires run.Valid() && c.serviceName != "" && c.namespace != ""
    ensures var after := Reconcile(c, s, run);
            && (after.Some? <==> CanSign(c, s, run.checked))
            && (after.Some? ==> HealthySince(c, after.value, run.leafIssued, CanVouch(c, s, run.checked)))
  {
    FreshBundle(c, run);
    if s.ca.Some? {
      var found := Found(s).value;
      ActionMeans(found.ca, found.tls, c, run.checked);
      match Evaluate(found.ca, found.tls, c, run.checked)
      case Healthy => HealthLasts(c, found, run.checked);
      case RotateLeaf => FreshLeaf(c, found.ca, run.leafIssued, run.leafKey);
      case RotateBundle =>
    }
  }

  /** Every set that a reconciliation arrives at is healthy exactly while in time, if its leaf is bound. */
  lemma ReconciledHealth(c: Config, s: Secrets, run: Run)
    requires run.Valid() && Reconcile(c, s, run).Some?
    ensures HealthySince(c, Reconcile(c, s, run).value, run.leafIssued, Bound(Reconcile(c, s, run).value, c))
    ensures UsableLeaf(Reconcile(c, s, run).value.tls, run.leafIssued)
  {
    var after := Reconcile(c, s, run).value;
    if s.ca.Some? {
      ActionMeans(Found(s).value.ca, Found(s).value.tls, c, run.checked);
    }
    HealthOfUsable(c, after, run.leafIssued);
  }

  /** A new leaf is not due for renewal at once. */
  predicate LeafLasts(issued: int, window: int) {
    issued + window < WholeSeconds(issued + LEAF_VALIDITY)
  }

  /** A new CA is not due for renewal when the leaf is issued under it. */
  predicate CaLasts(caIssued: int, now: int, window: int) {
    now < WholeSeconds(caIssued + CA_VALIDITY) && now + window < WholeSeconds(caIssued + CA_VALIDITY)
  }

  /**
   * When the run ends, the set is healthy exactly in these cases: it was and has stayed in time;
   * or the CA was kept, is still in time and vouches, and the new leaf lasts; or both are new and
   * last.
   */
  lemma HealthyAtTheEndIff(c: Config, s: Secrets, run: Run)
    requires run.Valid() && c.serviceName != "" && c.namespace != "" && CanSign(c, s, run.checked)
    ensures var after := Reconcile(c, s, run);
            var now, w := run.leafIssued, c.renewalWindow;
            && after.Some?
            && (Evaluate(after.value.ca, after.value.tls, c, now).Healthy?
                <==> match ActionFor(c, s, run.checked)
                     case Healthy => BothInTime(Found(s).value, now, w)
                     case RotateLeaf =>
                       && UsableCa(s.ca.value, now) && InTime(s.ca.value.cert.cert, now, w)
                       && Vouches(s.ca.value.cert.cert, c) && LeafLasts(now, w)
                     case RotateBundle => CaLasts(run.caIssued, now, w) && LeafLasts(now, w))
  {
    ReconcileStabilisesIff(c, s, run);
    FreshBundle(c, run);
    if s.ca.Some? {
      var found := Found(s).value;
      ActionMeans(found.ca, found.tls, c, run.checked);
      if Evaluate(found.ca, found.tls, c, run.checked).RotateLeaf? {
        FreshLeaf(c, found.ca, run.leafIssued, run.leafKey);
      }
    }
  }

  /** A new leaf lasts, whenever it is issued, exactly if the window leaves its validity a second to spare. */
  lemma LeafAlwaysLastsIff(window: int)
    ensures (forall issued :: LeafLasts(issued, window)) <==> window <= LEAF_VALIDITY - SECOND
  {
    if window > LEAF_VALIDITY - SECOND {
      assert (SECOND - 1 + LEAF_VALIDITY) % SECOND == SECOND - 1;
      assert !LeafLasts(SECOND - 1, window);
    }
  }

  /** Then a new CA lasts too, unless more than nine years pass between the two issues. */
  lemma CaLastsWithTheLeaf(caIssued: int, now: int, window: int)
    requires window <= LEAF_VALIDITY - SECOND && now <= caIssued + (CA_VALIDITY - LEAF_VALIDITY)
    ensures CaLasts(caIssued, now, window)
  {
  }

  // ---------------------------------------------------------------- later runs

  function Stored(s: Certs): Secrets {
    Secrets(Some(s.ca), Some(s.tls))
  }

  /** The runs of later replicas or restarts, each on what the one before left behind. */
  function ReconcileAll(c: Config, s: Secrets, runs: seq<Run>): Option<Secrets> {
    if runs == [] then Some(s)
    else
      var before := ReconcileAll(c, s, runs[..|runs| - 1]);
      if before.None? then None
      else
        var after := Reconcile(c, before.value, runs[|runs| - 1]);
        if after.None? then None else Some(Stored(after.value))
  }

  /** Once reconciled, any number of later runs change nothing until a renewal window opens. */
  lemma {:induction false} QuietUntilRenewal(c: Config, s: Certs, since: int, runs: seq<Run>)
    requires HealthySince(c, s, since, true)
    requires forall i :: 0 <= i < |runs| ==>
               since <= runs[i].checked && BothInTime(s, runs[i].checked, c.renewalWindow)
    ensures ReconcileAll(c, Stored(s), runs) == Some(Stored(s))
  {
    if runs != [] {
      var last := runs[|runs| - 1];
      QuietUntilRenewal(c, s, since, runs[..|runs| - 1]);
      assert Evaluate(s.ca, s.tls, c, last.checked).Healthy?;
    }
  }

  /** A CA that is kept at every check, strong but not vouching. */
  predicate KeptInVain(c: Config, ca: Data, now: int) {
    && UsableCa(ca, now) && InTime(ca.cert.cert, now, c.renewalWindow)
    && ca.key.key.strong && !Vouches(ca.cert.cert, c)
  }

  /** The leaf is neither the CA itself nor bound to it. */
  predicate Unbound(s: Secrets, ca: Data, c: Config) {
    s.ca == Some(ca) && !Bound(Certs(ca, if s.tls.Some? then s.tls.value else NO_DATA), c)
  }

  /**
   * Such a CA gets a new leaf in every run, as long as it is in time, and no leaf is ever healthy.
   */
  lemma {:induction false} RestrictedCaNeverHeals(c: Config, s: Secrets, ca: Data, runs: seq<Run>)
    requires c.serviceName != "" && c.namespace != "" && Unbound(s, ca, c)
    requires forall i :: 0 <= i < |runs| ==> runs[i].Valid() && KeptInVain(c, ca, runs[i].checked)
    ensures var after := ReconcileAll(c, s, runs);
            && after.Some? && Unbound(after.value, ca, c)
            && forall now :: ActionFor(c, after.value, now) != Healthy
  {
    if runs == [] {
      UnboundIsUnhealthy(c, s, ca);
    } else {
      var n := |runs| - 1;
      RestrictedCaNeverHeals(c, s, ca, runs[..n]);
      var before := ReconcileAll(c, s, runs[..n]).value;
      NewLeafInVain(c, before, ca, runs[n]);
      UnboundIsUnhealthy(c, ReconcileAll(c, s, runs).value, ca);
    }
  }

  lemma UnboundIsUnhealthy(c: Config, s: Secrets, ca: Data)
    requires Unbound(s, ca, c)
    ensures forall now :: ActionFor(c, s, now) != Healthy
  {
    forall now ensures ActionFor(c, s, now) != Healthy {
      ActionMeans(Found(s).value.ca, Found(s).value.tls, c, now);
    }
  }

  lemma NewLeafInVain(c: Config, s: Secrets, ca: Data, run: Run)
    requires c.serviceName != "" && c.namespace != "" && run.Valid()
    requires Unbound(s, ca, c) && KeptInVain(c, ca, run.checked)
    ensures Reconcile(c, s, run).Some? && Unbound(Stored(Reconcile(c, s, run).value), ca, c)
  {
    ActionMeans(Found(s).value.ca, Found(s).value.tls, c, run.checked);
    FreshLeaf(c, ca, run.leafIssued, run.leafKey);
  }

  // ---------------------------------------------------------------- instances of failure

  const SAMPLE := Config("s", "n", LEAF_VALIDITY - 1)
  const SAMPLE_RUN := Run(1, 1, 1, 7, 8)

  /** A window only just below the leaf validity can leave a new leaf due for renewal at once. */
  lemma WindowTooCloseToValidity()
    ensures var after := Reconcile(SAMPLE, Secrets(None, None), SAMPLE_RUN);
            && SAMPLE.renewalWindow < LEAF_VALIDITY && after.Some?
            && Evaluate(after.value.ca, after.value.tls, SAMPLE, 1).RotateLeaf?
  {
    HealthyAtTheEndIff(SAMPLE, Secrets(None, None), SAMPLE_RUN);
    var after := Reconcile(SAMPLE, Secrets(None, None), SAMPLE_RUN).value;
    ActionMeans(after.ca, after.tls, SAMPLE, 1);
  }

  /** tls.X509KeyPair */
  predicate KeyPair(tls: Data) {
    && tls.cert.CertPem? && tls.key.KeyPem? && tls.cert.cert.publicKey == Some(tls.key.key)
    && tls.cert.standard && tls.key.standard
  }

  /** Health does not look at the labels: a wrongly labelled leaf stays and can never be loaded. */
  lemma WrongLabelStays(c: Config, s: Certs, since: int, now: int)
    requires Evaluate(s.ca, s.tls, c, since).Healthy? && since <= now && BothInTime(s, now, c.renewalWindow)
    requires !s.tls.cert.standard || !s.tls.key.standard
    ensures Evaluate(s.ca, s.tls, c, now).Healthy? && !KeyPair(s.tls)
  {
    HealthLasts(c, s, since);
  }

  /** Such a set exists: a new bundle whose leaf has been relabelled. */
  lemma RelabelledBundle(c: Config, run: Run)
    requires run.Valid() && c.serviceName != "" && c.namespace != ""
    requires LeafLasts(run.leafIssued, c.renewalWindow) && CaLasts(run.caIssued, run.leafIssued, c.renewalWindow)
    ensures NewBundle(c, run).Some? && NewBundle(c, run).value.tls.cert.CertPem?
    ensures var s := NewBundle(c, run).value;
            var tls := s.tls.(cert := CertPem(s.tls.cert.cert, false));
            Evaluate(s.ca, tls, c, run.leafIssued).Healthy? && !KeyPair(tls)
  {
    FreshBundle(c, run);
    var s := NewBundle(c, run).value;
    ActionMeans(s.ca, s.tls, c, run.leafIssued);
    ActionMeans(s.ca, s.tls.(cert := CertPem(s.tls.cert.cert, false)), c, run.leafIssued);
  }

  /** A CA certificate like a new one, but with extended key usages that leave out server authentication. */
  lemma RestrictedCaExists(c: Config, run: Run)
    requires run.Valid() && c.serviceName != "" && c.namespace != ""
    requires CaLasts(run.caIssued, run.leafIssued, c.renewalWindow)
    ensures var ca := IssueCa(c, run.caIssued, run.caKey).value;
            var client := ca.(cert := ca.cert.(cert := ca.cert.cert.(serverAuth := false)));
            KeptInVain(c, client, run.leafIssued) && Unbound(Secrets(Some(client), None), client, c)
  {
  }

  /** A CA key too short to sign with: no run ever succeeds while the certificate is in time. */
  lemma WeakCaNeverReconciles(c: Config, s: Secrets, run: Run)
    requires ActionFor(c, s, run.checked).RotateLeaf? && s.ca.value.key.KeyPem? && !s.ca.value.key.key.strong
    ensures Reconcile(c, s, run).None?
  {
  }
}
