/** The certificate Secret behind the Kubernetes API (`internal/auth/secret_store.go`).  The API server
    gives every write a new resource version and refuses an update of any other version. */
module SecretStore {
  import opened Text

  /** Contents of a key of the Secret: which signing request a certificate or private key belongs to.
      `first` says whether the first PEM block is a certificate, behind which others may follow. */
  datatype Blob = Empty | CertOf(csr: nat, first: bool) | KeyOf(csr: nat) | Bundle(id: nat) | Junk(id: nat, first: bool)

  /** `tls.crt`, `tls.key`, `ca.crt` and whatever else the Secret may hold. */
  datatype Field = Crt | Key | Ca | Extra(name: string)

  type Data = map<Field, Blob>

  datatype Secret = Secret(version: nat, data: Data)

  function At(d: Data, f: Field): Blob { if f in d then d[f] else Empty }

  /** Non-empty certificate and key: what `Exists` asks. */
  predicate Provisioned(s: Option<Secret>) {
    s.Some? && !At(s.value.data, Crt).Empty? && !At(s.value.data, Key).Empty?
  }

  /** `tls.X509KeyPair` accepts exactly a certificate with the key of its own request; it passes over blocks
      that are not certificates. */
  predicate Matched(cert: Blob, key: Blob) { cert.CertOf? && key == KeyOf(cert.csr) }

  function StoredCa(s: Option<Secret>): Blob { if s.Some? then At(s.value.data, Ca) else Empty }

  /** The data `Write` builds over what its Get returned. */
  function NewData(base: Option<Secret>, cert: Blob, key: Blob, ca: Blob): (d: Data)
    ensures At(d, Crt) == cert && At(d, Key) == key
    ensures At(d, Ca) == if !ca.Empty? then ca else StoredCa(base)
  {
    var d := map[Crt := cert, Key := key];
    if !ca.Empty? then d[Ca := ca]
    else if !StoredCa(base).Empty? then d[Ca := StoredCa(base)]
    else d
  }

  /** The server's answer to the write that follows a Get of `base`: an update of the version that was
      read, or a create if nothing was. */
  predicate Accepts(server: Option<Secret>, base: Option<Secret>) {
    match base
    case Some(b) => server.Some? && server.value.version == b.version
    case None => server.None?
  }

  function Stored(server: Option<Secret>, base: Option<Secret>, cert: Blob, key: Blob, ca: Blob): Option<Secret> {
    Some(Secret(if server.Some? then server.value.version + 1 else 0, NewData(base, cert, key, ca)))
  }

  /** How a request to the server goes: done, refused on the way, or done with the reply lost. */
  datatype Net = Reaches | Fails | ReplyLost

  /** What may have become of the Secret since it was read: nothing, or newer versions. */
  predicate Later(before: Option<Secret>, after: Option<Secret>) {
    before == after || (after.Some? && (before.Some? ==> before.value.version < after.value.version))
  }

  class Store {
    var server: Option<Secret>

    /** `Exists` */
    method Exists(net: Net) returns (r: Option<bool>)
      ensures r.Some? <==> net.Reaches?
      ensures r.Some? ==>
                (r.value <==> server.Some? && Crt in server.value.data && Key in server.value.data
                              && !server.value.data[Crt].Empty? && !server.value.data[Key].Empty?)
    {
      if !net.Reaches? { return None; }
      if server.None? { return Some(false); }
      return Some(!At(server.value.data, Crt).Empty? && !At(server.value.data, Key).Empty?);
    }

    /** `Read` */
    method Read(net: Net) returns (r: Option<(Blob, Blob, Blob)>)
      ensures r.Some? <==> net.Reaches? && server.Some?
      ensures r.Some? ==> r.value == (At(server.value.data, Crt), At(server.value.data, Key), At(server.value.data, Ca))
    {
      if !net.Reaches? || server.None? { return None; }
      var d := server.value.data;
      return Some((At(d, Crt), At(d, Key), At(d, Ca)));
    }

    /** `Write`, with `meanwhile` the state in which its update finds the server.  It succeeds only over
        the very Secret it read; a writer that was overtaken changes nothing; and a stored CA is never lost. */
    method Write(cert: Blob, key: Blob, ca: Blob, get: Net, meanwhile: Option<Secret>, put: Net) returns (ok: bool)
      requires Later(server, meanwhile)
      modifies this
      ensures ok <==> !cert.Empty? && !key.Empty? && get.Reaches? && put.Reaches? && meanwhile == old(server)
      ensures ok ==> Provisioned(server) && At(server.value.data, Crt) == cert && At(server.value.data, Key) == key
      ensures var lands := !cert.Empty? && !key.Empty? && get.Reaches? && !put.Fails? && meanwhile == old(server);
              server == if lands then Stored(meanwhile, old(server), cert, key, ca) else meanwhile
      ensures !StoredCa(meanwhile).Empty? ==> !StoredCa(server).Empty?
    {
      if cert.Empty? || key.Empty? {
        server := meanwhile;
        return false;
      }
      if !get.Reaches? {
        server := meanwhile;
        return false;
      }
      var existing := server;
      var data := map[Crt := cert, Key := key];
      if existing.Some? {
        if !ca.Empty? {
          data := data[Ca := ca];
        } else if !At(existing.value.data, Ca).Empty? {
          data := data[Ca := At(existing.value.data, Ca)];
        }
      } else if !ca.Empty? {
        data := data[Ca := ca];
      }
      server := meanwhile;
      if put.Fails? || !Accepts(server, existing) { return false; }
      server := Some(Secret(if server.Some? then server.value.version + 1 else 0, data));
      return put.Reaches?;
    }
  }
}
