/** The files of the certificate directory (`internal/auth/keypair.go`): each is replaced through a
    temporary file and a rename, so each is old or new at any moment, but the three are not replaced
    together. */
module Material {
  import opened Text

  const CERT: string := "tls.crt"
  const KEY: string := "tls.key"
  const CA: string := "ca.crt"

  /** Where a write stops: at primitive operation `at` with an error, or there with the process.
      The operations are create, write, chmod, close and rename, numbered from 0. */
  datatype Stop = Never | Fails(at: nat) | Crashes(at: nat)

  predicate Completes(stop: Stop) { stop.Never? || stop.at > 4 }

  /** How far a rotation got. */
  datatype Landed = Nothing | CertOnly | CertAndKey | Everything

  /** The contents of one file after a rotation that landed there. */
  function After(l: Landed, before: map<string, string>, path: string, cert: string, key: string, ca: string): Option<string> {
    if path == CERT && !l.Nothing? then Some(cert)
    else if path == KEY && (l.CertAndKey? || l.Everything?) then Some(key)
    else if path == CA && l.Everything? && ca != "" then Some(ca)
    else Content(before, path)
  }

  function Content(files: map<string, string>, path: string): Option<string> {
    if path in files then Some(files[path]) else None
  }

  /** The rotation gets as far as the new certificate. */
  predicate Begins(cert: string, key: string, mkdirOk: bool, stops: seq<Stop>)
    requires |stops| == 3
  {
    cert != "" && key != "" && mkdirOk && Completes(stops[0])
  }

  /** Certificate and key are there and belong together. */
  predicate Paired(cert: Option<string>, key: Option<string>, pairs: (string, string) -> bool) {
    cert.Some? && key.Some? && pairs(cert.value, key.value)
  }

  class Dir {
    /** Every file of the directory by name, temporary ones included. */
    var files: map<string, string>

    constructor (files: map<string, string>)
      ensures this.files == files
    {
      this.files := files;
    }

    /** `writeAtomic`: the target holds the old or the whole new contents, no other file changes, and an
        error leaves no temporary file behind; only a crash can. */
    method WriteAtomic(path: string, data: string, tmp: string, stop: Stop) returns (ok: bool)
      requires tmp !in files && tmp != path
      modifies this
      ensures ok <==> stop.Never? || stop.at > 4
      ensures Content(files, path) == if ok then Some(data) else Content(old(files), path)
      ensures forall p :: p != path && p != tmp ==> Content(files, p) == Content(old(files), p)
      ensures !stop.Crashes? || ok ==> tmp !in files
    {
      if !stop.Never? && stop.at == 0 { return false; }
      files := files[tmp := ""];
      if !stop.Never? && 0 < stop.at <= 4 {
        if stop.at > 1 { files := files[tmp := data]; }
        if stop.Fails? { files := files - {tmp}; }
        return false;
      }
      files := files[tmp := data];
      files := files[path := files[tmp]] - {tmp};
      return true;
    }

    /** `WriteMaterial`: certificate, then key, then a CA that is not empty.  Whatever stops it, the
        directory is in one of four states; the second of them is a certificate without its key. */
    method WriteMaterial(cert: string, key: string, ca: string, mkdirOk: bool, tmps: seq<string>, stops: seq<Stop>)
      returns (ok: bool, ghost landed: Landed)
      requires |tmps| == |stops| == 3
      requires forall i :: 0 <= i < 3 ==> tmps[i] !in files && tmps[i] != CERT && tmps[i] != KEY && tmps[i] != CA
      requires tmps[0] != tmps[1] && tmps[0] != tmps[2] && tmps[1] != tmps[2]
      modifies this
      ensures forall p :: p !in tmps ==> Content(files, p) == After(landed, old(files), p, cert, key, ca)
      ensures ok <==> landed.Everything?
      ensures CERT !in tmps && KEY !in tmps && CA !in tmps
      ensures Content(files, CERT) == if landed.Nothing? then Content(old(files), CERT) else Some(cert)
      ensures Content(files, KEY) == if landed.CertAndKey? || landed.Everything? then Some(key) else Content(old(files), KEY)
      ensures Content(files, CA) == if landed.Everything? && ca != "" then Some(ca) else Content(old(files), CA)
      ensures ok <==> cert != "" && key != "" && mkdirOk && Completes(stops[0]) && Completes(stops[1]) && (ca == "" || Completes(stops[2]))
      ensures landed.Nothing? <==> !Begins(cert, key, mkdirOk, stops)
      ensures landed.CertOnly? <==> Begins(cert, key, mkdirOk, stops) && !Completes(stops[1])
      ensures landed.CertAndKey? <==> Begins(cert, key, mkdirOk, stops) && Completes(stops[1]) && ca != "" && !Completes(stops[2])
    {
      if cert == "" || key == "" { return false, Nothing; }
      if !mkdirOk { return false, Nothing; }
      var wrote := WriteAtomic(CERT, cert, tmps[0], stops[0]);
      if !wrote { return false, Nothing; }
      assert Content(files, tmps[1]) == None && Content(files, tmps[2]) == None;
      wrote := WriteAtomic(KEY, key, tmps[1], stops[1]);
      if !wrote { return false, CertOnly; }
      if ca != "" {
        assert Content(files, tmps[2]) == None;
        wrote := WriteAtomic(CA, ca, tmps[2], stops[2]);
        if !wrote { return false, CertAndKey; }
      }
      return true, Everything;
    }

    /** `CertMaterial.Exists`: presence of the two files, nothing about what is in them. */
    method Exists() returns (present: bool)
      ensures present <==> Content(files, CERT).Some? && Content(files, KEY).Some?
    {
      if CERT !in files { return false; }
      return KEY in files;
    }
  }

  /** A rotation to a new pair whose certificate does not fit the key in place leaves a matching pair
      exactly when both renames happen, or when it does not begin over one; whatever else stops or fails. */
  method WhenThePairMatches(d: Dir, cert: string, key: string, ca: string, mkdirOk: bool, tmps: seq<string>, stops: seq<Stop>,
                            ghost pairs: (string, string) -> bool) returns (ok: bool)
    requires |tmps| == |stops| == 3
    requires forall i :: 0 <= i < 3 ==> tmps[i] !in d.files && tmps[i] != CERT && tmps[i] != KEY && tmps[i] != CA
    requires tmps[0] != tmps[1] && tmps[0] != tmps[2] && tmps[1] != tmps[2]
    requires pairs(cert, key) && (KEY in d.files ==> !pairs(cert, d.files[KEY]))
    modifies d
    ensures Paired(Content(d.files, CERT), Content(d.files, KEY), pairs) <==>
              if Begins(cert, key, mkdirOk, stops) then Completes(stops[1])
              else Paired(Content(old(d.files), CERT), Content(old(d.files), KEY), pairs)
  {
    ghost var landed;
    ok, landed := d.WriteMaterial(cert, key, ca, mkdirOk, tmps, stops);
  }

  /** A process that dies right after the first rename leaves the new certificate beside the old key. */
  method HalfRotated(cert: string, key: string, ca: string, oldCert: string, oldKey: string) returns (d: Dir)
    requires cert != "" && key != ""
    ensures fresh(d) && Content(d.files, CERT) == Some(cert) && Content(d.files, KEY) == Some(oldKey)
  {
    d := new Dir(map[CERT := oldCert, KEY := oldKey]);
    var ok, _ := d.WriteMaterial(cert, key, ca, true, ["1", "2", "3"], [Never, Crashes(0), Never]);
  }
}
