/**
 * The reconciliation of the webhook's Secrets and its configuration under optimistic concurrency
 * (sysbox-admission/admission/certificate_resources.go, lifecycle.go).
 *
 * Other replicas act between the calls of a run: before each call on an object, one event of
 * that object's list happens. An empty list is an undisturbed run.
 */
module CertificateLifecycle {

  import opened Wrappers
  import opened Certificates

  /** `locked`: the API server refuses our update, as for an immutable Secret or one of another type. */
  datatype Versioned = Versioned(data: Data, version: nat, locked: bool)

  datatype Event = Nothing | Written(data: Data, locked: bool) | Deleted | CallFails

  datatype Reply = Current(item: Versioned) | NotFound | AlreadyExists | Conflict | Failed

  /** retry.DefaultRetry */
  const ATTEMPTS: nat := 5

  /** One stored object of the API server; every write gives it a new version. */
  class ApiObject {
    var stored: Option<Versioned>
    var next: nat
    var others: seq<Event>

    ghost predicate Valid()
      reads this
    {
      stored.Some? ==> stored.value.version < next
    }

    constructor (initial: Option<Data>, locked: bool, events: seq<Event>)
      ensures Valid() && others == events
      ensures stored == if initial.Some? then Some(Versioned(initial.value, 0, locked)) else None
    {
      stored := if initial.Some? then Some(Versioned(initial.value, 0, locked)) else None;
      next := 1;
      others := events;
    }

    ghost predicate Undisturbed()
      reads this
    {
      others == []
    }

    ghost predicate Locked()
      reads this
    {
      stored.Some? && stored.value.locked
    }

    function Contents(): Option<Data>
      reads this
    {
      if stored.Some? then Some(stored.value.data) else None
    }

    /** Lets the others act; the result says whether our own call goes through. */
    method OthersAct() returns (ok: bool)
      requires Valid()
      modifies this
      ensures Valid()
      ensures old(Undisturbed()) ==> ok && stored == old(stored) && next == old(next) && Undisturbed()
    {
      ok := true;
      if others != [] {
        var event := others[0];
        others := others[1..];
        match event {
          case Nothing =>
          case Written(data, locked) =>
            stored := Some(Versioned(data, next, locked));
            next := next + 1;
          case Deleted =>
            stored := None;
          case CallFails =>
            ok := false;
        }
      }
    }

    method Get() returns (r: Reply)
      requires Valid()
      modifies this
      ensures Valid()
      ensures r.Current? || r.NotFound? || r.Failed?
      ensures r.Current? ==> stored == Some(r.item)
      ensures r.NotFound? ==> stored == None
      ensures old(Undisturbed()) ==> !r.Failed? && stored == old(stored) && next == old(next) && Undisturbed()
    {
      var ok := OthersAct();
      if !ok {
        return Failed;
      }
      r := if stored.Some? then Current(stored.value) else NotFound;
    }

    method Create(data: Data) returns (r: Reply)
      requires Valid()
      modifies this
      ensures Valid()
      ensures r.Current? || r.AlreadyExists? || r.Failed?
      ensures r.Current? ==> r.item.data == data && stored == Some(r.item)
      ensures r.AlreadyExists? ==> stored.Some?
      ensures !r.Current? && old(Undisturbed()) ==> stored == old(stored)
      ensures old(Undisturbed()) ==> Undisturbed() && (r.Current? <==> old(stored).None?)
    {
      var ok := OthersAct();
      if !ok {
        return Failed;
      }
      if stored.Some? {
        return AlreadyExists;
      }
      stored := Some(Versioned(data, next, false));
      next := next + 1;
      r := Current(stored.value);
    }

    method Update(data: Data, version: nat) returns (r: Reply)
      requires Valid()
      modifies this
      ensures Valid()
      ensures r.Current? || r.Conflict? || r.NotFound? || r.Failed?
      ensures r.Current? ==> r.item.data == data && stored == Some(r.item)
      ensures !r.Current? && old(Undisturbed()) ==> stored == old(stored)
      ensures old(Undisturbed()) && old(stored).Some? && old(stored).value.version == version ==>
                if old(Locked()) then r.Failed? else r.Current?
      ensures old(Undisturbed()) ==> Undisturbed()
    {
      var ok := OthersAct();
      if !ok {
        return Failed;
      }
      if stored.None? {
        return NotFound;
      }
      if stored.value.version != version {
        return Conflict;
      }
      if stored.value.locked {
        return Failed;
      }
      stored := Some(Versioned(data, next, false));
      next := next + 1;
      r := Current(stored.value);
    }

    /**
     * applyCASecret, applyTLSSecret and the body of ensureWebhook: create the object, or update it
     * and retry on conflicts. Whatever the others do, success means that exactly this data is
     * stored when the call returns; undisturbed, it fails exactly on a locked object.
     */
    method Apply(data: Data) returns (r: Option<Data>)
      requires Valid()
      modifies this
      ensures Valid()
      ensures r.Some? ==> r.value == data && Contents() == Some(data)
      ensures old(Undisturbed()) ==> Undisturbed() && (r.Some? <==> !old(Locked()))
      ensures old(Undisturbed()) && r.None? ==> stored == old(stored)
    {
      var current := Get();
      if current.NotFound? {
        var created := Create(data);
        if created.AlreadyExists? {
          current := Get();
        } else if created.Current? {
          return Some(created.item.data);
        } else {
          return None;
        }
      }
      if !current.Current? {
        return None;
      }
      var attempt := 0;
      while attempt < ATTEMPTS
        invariant Valid() && current.Current?
        invariant old(Undisturbed()) ==>
                    Undisturbed() && stored == old(stored) == Some(current.item) && attempt == 0
      {
        var updated := Update(data, current.item.version);
        if updated.Current? {
          return Some(updated.item.data);
        }
        if !updated.Conflict? {
          return None;
        }
        current := Get();
        if !current.Current? {
          return None;
        }
        attempt := attempt + 1;
      }
      return None;
    }
  }

  // ---------------------------------------------------------------- the manager

  /** The outcome is one that an undisturbed run would have on some Secrets. */
  ghost predicate AsIfAlone(c: Config, run: Run, r: Certs) {
    exists s: Secrets :: Reconcile(c, s, run) == Some(r)
  }

  class Manager {
    const config: Config
    const webhookName: string
    const ca: ApiObject
    const tls: ApiObject
    const webhook: ApiObject

    constructor (config: Config, webhookName: string, ca: ApiObject, tls: ApiObject, webhook: ApiObject)
      requires ca != tls && tls != webhook && ca != webhook
      requires ca.Valid() && tls.Valid() && webhook.Valid()
      ensures Valid()
      ensures this.config == config && this.webhookName == webhookName
      ensures this.ca == ca && this.tls == tls && this.webhook == webhook
    {
      this.config, this.webhookName := config, webhookName;
      this.ca, this.tls, this.webhook := ca, tls, webhook;
    }

    ghost predicate Valid()
      reads this, ca, tls, webhook
    {
      && ca != tls && tls != webhook && ca != webhook
      && ca.Valid() && tls.Valid() && webhook.Valid()
    }

    ghost predicate Undisturbed()
      reads this, ca, tls, webhook
    {
      ca.Undisturbed() && tls.Undisturbed() && webhook.Undisturbed()
    }

    function Stored(): Secrets
      reads this, ca, tls
    {
      Secrets(ca.Contents(), tls.Contents())
    }

    method ReadCertificates() returns (failed: bool, found: Option<Certs>)
      requires Valid()
      modifies ca, tls
      ensures Valid()
      ensures old(Undisturbed()) ==>
                && Undisturbed() && ca.stored == old(ca.stored) && tls.stored == old(tls.stored)
                && !failed && found == Found(old(Stored()))
    {
      var caReply := ca.Get();
      if caReply.NotFound? {
        return false, None;
      }
      if !caReply.Current? {
        return true, None;
      }
      var tlsReply := tls.Get();
      if tlsReply.NotFound? {
        return false, Some(Certs(caReply.item.data, NO_DATA));
      }
      if !tlsReply.Current? {
        return true, None;
      }
      return false, Some(Certs(caReply.item.data, tlsReply.item.data));
    }

    method RotateCertificateBundle(run: Run) returns (r: Option<Certs>)
      requires Valid()
      modifies ca, tls
      ensures Valid()
      ensures r.Some? ==> r == NewBundle(config, run) && tls.Contents() == Some(r.value.tls)
      ensures old(Undisturbed()) ==>
                && Undisturbed()
                && (r.Some? <==> NewBundle(config, run).Some? && !old(ca.Locked()) && !old(tls.Locked()))
                && (r.Some? ==> Stored() == Certificates.Stored(r.value))
    {
      var issued := IssueCa(config, run.caIssued, run.caKey);
      if issued.None? {
        return None;
      }
      var caData := ca.Apply(issued.value);
      if caData.None? {
        return None;
      }
      var leaf := IssueLeaf(config, caData.value, run.leafIssued, run.leafKey);
      if leaf.None? {
        return None;
      }
      var tlsData := tls.Apply(leaf.value);
      if tlsData.None? {
        return None;
      }
      r := Some(Certs(caData.value, tlsData.value));
    }

    method RotateLeafCertificate(caData: Data, run: Run) returns (r: Option<Certs>)
      requires Valid()
      modifies tls
      ensures Valid()
      ensures r.Some? ==> r == NewLeaf(config, caData, run) && tls.Contents() == Some(r.value.tls)
      ensures old(Undisturbed()) ==>
                Undisturbed() && (r.Some? <==> NewLeaf(config, caData, run).Some? && !old(tls.Locked()))
    {
      var leaf := IssueLeaf(config, caData, run.leafIssued, run.leafKey);
      if leaf.None? {
        return None;
      }
      var tlsData := tls.Apply(leaf.value);
      if tlsData.None? {
        return None;
      }
      r := Some(Certs(caData, tlsData.value));
    }

    /** The Secrets that the stored state makes us write can be written. */
    ghost predicate CanWrite(now: int)
      reads this, ca, tls
    {
      match ActionFor(config, Stored(), now)
      case Healthy => true
      case RotateLeaf => !tls.Locked()
      case RotateBundle => !ca.Locked() && !tls.Locked()
    }

    /**
     * ensureCertificateResources. Whatever the others do, a set it returns is one that an
     * undisturbed run could have returned. Undisturbed, it returns a set exactly if it can be
     * issued and written, stores that set, and writes no Secret at all if the stored set was
     * healthy.
     */
    method EnsureCertificates(run: Run) returns (r: Option<Certs>)
      requires Valid()
      modifies ca, tls
      ensures Valid()
      ensures r.Some? ==> AsIfAlone(config, run, r.value)
      ensures old(Undisturbed()) ==>
                && Undisturbed()
                && (r.Some? <==> Reconcile(config, old(Stored()), run).Some? && old(CanWrite(run.checked)))
                && (r.Some? ==> r == Reconcile(config, old(Stored()), run) && Stored() == Certificates.Stored(r.value))
      ensures old(Undisturbed()) && old(ActionFor(config, Stored(), run.checked)).Healthy? ==>
                r.Some? && ca.stored == old(ca.stored) && tls.stored == old(tls.stored)
    {
      var failed, found := ReadCertificates();
      if failed {
        return None;
      }
      ghost var seen :=
        if found.None? then Secrets(None, None) else Secrets(Some(found.value.ca), Some(found.value.tls));
      assert Found(seen) == found;
      assert old(Undisturbed()) ==>
        ActionFor(config, seen, run.checked) == ActionFor(config, old(Stored()), run.checked);
      if found.None? {
        r := RotateCertificateBundle(run);
        assert r.Some? ==> Reconcile(config, seen, run) == r;
        return;
      }
      var action := Evaluate(found.value.ca, found.value.tls, config, run.checked);
      match action {
        case Healthy =>
          StoredWhenHealthy(config, old(Stored()), run.checked);
          r := found;
        case RotateLeaf =>
          LeafRotationHasUsableCa(found.value.ca, found.value.tls, config, run.checked);
          r := RotateLeafCertificate(found.value.ca, run);
        case RotateBundle =>
          r := RotateCertificateBundle(run);
      }
      assert r.Some? ==> Reconcile(config, seen, run) == r;
    }

    ghost predicate Named()
      reads this
    {
      config.serviceName != "" && config.namespace != "" && webhookName != ""
    }

    /** The stored leaf, where it is kept, is labelled so that it can be loaded. */
    ghost predicate CanLoad(now: int)
      reads this, ca, tls
    {
      ActionFor(config, Stored(), now).Healthy? ==> KeyPair(Found(Stored()).value.tls)
    }

    /**
     * Ensure, without its lease. Whatever the others do, on success the webhook's CA bundle is the
     * certificate of the set returned, whose leaf loads and which is healthy exactly while in time,
     * if its leaf is bound. Undisturbed, it succeeds exactly if the names are set, the stored CA
     * can sign where it is kept, what must be written can be, and a kept leaf can be loaded; and
     * then the Secrets hold the set.
     */
    method Ensure(run: Run) returns (r: Option<Certs>)
      requires Valid() && run.Valid()
      modifies ca, tls, webhook
      ensures Valid()
      ensures r.Some? ==>
                && AsIfAlone(config, run, r.value) && KeyPair(r.value.tls)
                && HealthySince(config, r.value, run.leafIssued, Bound(r.value, config))
                && webhook.Contents() == Some(Data(r.value.ca.cert, Junk))
      ensures old(Undisturbed()) ==>
                && (r.Some? <==> && Named() && old(CanSign(config, Stored(), run.checked))
                                 && old(CanWrite(run.checked)) && old(CanLoad(run.checked))
                                 && !old(webhook.Locked()))
                && (r.Some? ==>
                      && Undisturbed() && Stored() == Certificates.Stored(r.value)
                      && r == Reconcile(config, old(Stored()), run)
                      && HealthySince(config, r.value, run.leafIssued,
                                      old(CanVouch(config, Stored(), run.checked))))
    {
      var certs := EnsureCertificates(run);
      if config.serviceName != "" && config.namespace != "" {
        ReconcileStabilisesIff(config, old(Stored()), run);
      }
      if certs.None? || webhookName == "" || config.serviceName == "" || config.namespace == "" {
        return None;
      }
      ghost var s: Secrets :| Reconcile(config, s, run) == Some(certs.value);
      ReconciledHealth(config, s, run);
      var configured := webhook.Apply(Data(certs.value.ca.cert, Junk));
      LoadsUnlessKept(config, old(Stored()), run);
      if configured.None? || !KeyPair(certs.value.tls) {
        return None;
      }
      r := certs;
    }
  }

  /** A healthy set consists of two stored Secrets. */
  lemma StoredWhenHealthy(c: Config, s: Secrets, now: int)
    ensures ActionFor(c, s, now).Healthy? ==> s.ca.Some? && s.tls.Some?
  {
  }

  /** What is newly issued can be loaded; a kept leaf has the right key, so its labels decide. */
  lemma LoadsUnlessKept(c: Config, s: Secrets, run: Run)
    ensures Reconcile(c, s, run).Some? && !ActionFor(c, s, run.checked).Healthy? ==>
              KeyPair(Reconcile(c, s, run).value.tls)
  {
  }
}
