/** The brain's decapsulation keys (`ParseHPKEKeys` and `Public` in `internal/auth/sealed.go`). */
module HpkeKeys {
  import opened Text
  import opened Sealed

  /** What the bytes of a PEM block turn out to be. */
  datatype Material = Unparsable | OtherKind | Unwrappable | X25519(key: PrivateKey)

  datatype Block = Block(kind: string, material: Material)

  datatype KeyError = ParseFailed | NotX25519 | WrapFailed | NoKey

  datatype KeySet = KeySet(order: seq<string>, keys: map<string, PrivateKey>)

  const EMPTY: KeySet := KeySet([], map[])

  predicate IsKey(b: Block) { b.kind == "PRIVATE KEY" }

  /** A block that makes the whole file unusable. */
  predicate Spoils(b: Block) { IsKey(b) && !b.material.X25519? }

  function Add(ks: KeySet, b: Block, kid: PrivateKey -> string): KeySet {
    if !IsKey(b) || !b.material.X25519? || kid(b.material.key) in ks.keys then ks
    else KeySet(ks.order + [kid(b.material.key)], ks.keys[kid(b.material.key) := b.material.key])
  }

  function Collect(blocks: seq<Block>, kid: PrivateKey -> string): KeySet {
    if blocks == [] then EMPTY else Add(Collect(blocks[..|blocks| - 1], kid), blocks[|blocks| - 1], kid)
  }

  /** A file that is accepted: no block spoils it and there is a key in it. */
  ghost predicate Accepted(blocks: seq<Block>) {
    (forall i :: 0 <= i < |blocks| ==> !Spoils(blocks[i])) && exists i :: 0 <= i < |blocks| && IsKey(blocks[i])
  }

  /** What the first block that spoils a file is reported as. */
  predicate FirstSpoiler(blocks: seq<Block>, e: KeyError) {
    exists i :: 0 <= i < |blocks| && blocks[i].kind == "PRIVATE KEY" && (forall j :: 0 <= j < i ==> !Spoils(blocks[j]))
                && ((blocks[i].material.Unparsable? && e == ParseFailed) || (blocks[i].material.OtherKind? && e == NotX25519)
                    || (blocks[i].material.Unwrappable? && e == WrapFailed))
  }

  /** `ParseHPKEKeys` over the PEM blocks of a file, in file order. */
  method ParseHPKEKeys(blocks: seq<Block>, kid: PrivateKey -> string) returns (r: Result<KeySet, KeyError>)
    ensures r.Ok? <==> Accepted(blocks)
    ensures r.Ok? ==> r.value == Collect(blocks, kid)
    ensures r.Err? && r.error != NoKey ==> FirstSpoiler(blocks, r.error)
    ensures r == Err(NoKey) <==> forall i :: 0 <= i < |blocks| ==> !IsKey(blocks[i])
  {
    var ks := EMPTY;
    for i := 0 to |blocks|
      invariant ks == Collect(blocks[..i], kid)
      invariant forall j :: 0 <= j < i ==> !Spoils(blocks[j])
      invariant ks.order == [] <==> forall j :: 0 <= j < i ==> !IsKey(blocks[j])
      invariant ks.order == [] <==> ks.keys == map[]
    {
      var b := blocks[i];
      assert blocks[..i + 1][..i] == blocks[..i] && blocks[..i + 1][i] == b;
      if b.kind == "PRIVATE KEY" {
        match b.material
        case Unparsable => return Err(ParseFailed);
        case OtherKind => return Err(NotX25519);
        case Unwrappable => return Err(WrapFailed);
        case X25519(key) =>
          var id := kid(key);
          if id !in ks.keys {
            ks := KeySet(ks.order + [id], ks.keys[id := key]);
          }
      }
    }
    assert blocks[..|blocks|] == blocks;
    if |ks.order| == 0 { return Err(NoKey); }
    return Ok(ks);
  }

  ghost predicate Distinct(ids: seq<string>) {
    forall i, j :: 0 <= i < j < |ids| ==> ids[i] != ids[j]
  }

  /** Every key id is listed once, lists exactly the keys held, and is the id of its key. */
  ghost predicate Valid(ks: KeySet, kid: PrivateKey -> string) {
    && Distinct(ks.order)
    && (forall id :: id in ks.order <==> id in ks.keys)
    && (forall id :: id in ks.keys ==> kid(ks.keys[id]) == id)
  }

  lemma {:induction false} CollectValid(blocks: seq<Block>, kid: PrivateKey -> string)
    ensures Valid(Collect(blocks, kid), kid)
  {
    if blocks != [] { CollectValid(blocks[..|blocks| - 1], kid); }
  }

  /** Every key of the file is held, under its id, the first of those with the same id; and the ids are listed
      in the order in which they first occur. */
  lemma {:induction false} CollectComplete(blocks: seq<Block>, kid: PrivateKey -> string, i: nat)
    requires i < |blocks| && blocks[i].kind == "PRIVATE KEY" && blocks[i].material.X25519?
    ensures var id, ks := kid(blocks[i].material.key), Collect(blocks, kid);
            && id in ks.keys && id in ks.order
            && ((forall j :: 0 <= j < i && IsKey(blocks[j]) && blocks[j].material.X25519? ==> kid(blocks[j].material.key) != id) ==>
                  ks.keys[id] == blocks[i].material.key && Collect(blocks[..i], kid).order + [id] <= ks.order)
    decreases |blocks|
  {
    var n := |blocks| - 1;
    var init := blocks[..n];
    CollectValid(blocks, kid);
    if i < n {
      CollectComplete(init, kid, i);
      assert init[..i] == blocks[..i];
    } else if forall j :: 0 <= j < i && IsKey(blocks[j]) && blocks[j].material.X25519? ==> kid(blocks[j].material.key) != kid(blocks[i].material.key) {
      NotHeld(init, kid, kid(blocks[i].material.key));
    }
  }

  lemma {:induction false} NotHeld(blocks: seq<Block>, kid: PrivateKey -> string, id: string)
    requires forall j :: 0 <= j < |blocks| && IsKey(blocks[j]) && blocks[j].material.X25519? ==> kid(blocks[j].material.key) != id
    ensures id !in Collect(blocks, kid).keys
    decreases |blocks|
  {
    if blocks != [] { NotHeld(blocks[..|blocks| - 1], kid, id); }
  }

  /** `Public`: the key ids with their public keys, active key first. */
  method Public(ks: KeySet, s: Suite, kid: PrivateKey -> string) returns (out: seq<(string, string)>)
    requires Valid(ks, kid)
    ensures |out| == |ks.order|
    ensures forall i :: 0 <= i < |out| ==> out[i].0 == ks.order[i] && out[i].0 in ks.keys && out[i].1 == s.public(ks.keys[out[i].0])
  {
    out := [];
    for i := 0 to |ks.order|
      invariant |out| == i
      invariant forall j :: 0 <= j < i ==> out[j].0 == ks.order[j] && out[j].0 in ks.keys && out[j].1 == s.public(ks.keys[out[j].0])
    {
      out := out + [(ks.order[i], s.public(ks.keys[ks.order[i]]))];
    }
  }

  // ---------------------------------------------------------------------
  // Rotation: the new key file goes in front of the old one

  function Without(ids: seq<string>, keys: map<string, PrivateKey>): seq<string> {
    if ids == [] then []
    else Without(ids[..|ids| - 1], keys) + if ids[|ids| - 1] in keys then [] else [ids[|ids| - 1]]
  }

  /** `front` keeps its order and its keys; what only `back` has follows. */
  function Merge(front: KeySet, back: KeySet): KeySet {
    KeySet(front.order + Without(back.order, front.keys), back.keys + front.keys)
  }

  lemma MergeAdd(front: KeySet, back: KeySet, b: Block, kid: PrivateKey -> string)
    ensures Add(Merge(front, back), b, kid) == Merge(front, Add(back, b, kid))
  {
    if IsKey(b) && b.material.X25519? {
      var id := kid(b.material.key);
      if id !in back.keys {
        assert (back.order + [id])[..|back.order|] == back.order;
        if id in front.keys {
          assert back.keys[id := b.material.key] + front.keys == back.keys + front.keys;
        } else {
          assert back.keys[id := b.material.key] + front.keys == (back.keys + front.keys)[id := b.material.key];
        }
      }
    }
  }

  lemma {:induction false} CollectConcat(front: seq<Block>, back: seq<Block>, kid: PrivateKey -> string)
    ensures Collect(front + back, kid) == Merge(Collect(front, kid), Collect(back, kid))
  {
    if back == [] {
      assert front + back == front;
      assert Merge(Collect(front, kid), EMPTY) == Collect(front, kid);
    } else {
      var init := back[..|back| - 1];
      assert (front + back)[..|front + back| - 1] == front + init;
      CollectConcat(front, init, kid);
      MergeAdd(Collect(front, kid), Collect(init, kid), back[|back| - 1], kid);
    }
  }

  lemma {:induction false} CollectNonEmpty(blocks: seq<Block>, kid: PrivateKey -> string, i: nat)
    requires i < |blocks| && IsKey(blocks[i]) && blocks[i].material.X25519?
    ensures Collect(blocks, kid).order != []
  {
    CollectValid(blocks[..|blocks| - 1], kid);
    if i < |blocks| - 1 {
      CollectNonEmpty(blocks[..|blocks| - 1], kid, i);
    }
  }

  /** Two files one after the other are accepted exactly when neither has a block that spoils it and one of
      them has a key; so a file that is accepted can be prepended to any other. */
  lemma AcceptedConcat(front: seq<Block>, back: seq<Block>)
    ensures Accepted(front + back) <==>
              && (forall i :: 0 <= i < |front| ==> !Spoils(front[i])) && (forall i :: 0 <= i < |back| ==> !Spoils(back[i]))
              && ((exists i :: 0 <= i < |front| && IsKey(front[i])) || (exists i :: 0 <= i < |back| && IsKey(back[i])))
  {
    var all := front + back;
    assert forall i :: 0 <= i < |front| ==> all[i] == front[i];
    assert forall i :: 0 <= i < |back| ==> all[|front| + i] == back[i];
  }

  /** Prepending a key file makes its first key the active one and keeps every key id of the old file, with
      the old key unless the new file has a key of that id; and if both files are accepted, so is the result. */
  lemma PrependRotates(front: seq<Block>, back: seq<Block>, kid: PrivateKey -> string)
    requires exists i :: 0 <= i < |front| && IsKey(front[i]) && front[i].material.X25519?
    ensures Accepted(front) && Accepted(back) ==> Accepted(front + back)
    ensures var added, prior, all := Collect(front, kid), Collect(back, kid), Collect(front + back, kid);
            && Valid(all, kid)
            && added.order != [] && all.order != [] && all.order[0] == added.order[0]
            && all.keys.Keys == added.keys.Keys + prior.keys.Keys
            && (forall id :: id in prior.keys && id !in added.keys ==> all.keys[id] == prior.keys[id])
            && (forall id :: id in added.keys ==> all.keys[id] == added.keys[id])
  {
    var i :| 0 <= i < |front| && IsKey(front[i]) && front[i].material.X25519?;
    CollectNonEmpty(front, kid, i);
    CollectConcat(front, back, kid);
    CollectValid(front + back, kid);
    AcceptedConcat(front, back);
  }

  /** So a request sealed to any key of the old file still opens after the rotation, when key ids do
      not collide. */
  lemma OldRequestsStillOpen(s: Suite, front: seq<Block>, back: seq<Block>, kid: PrivateKey -> string, id: string,
                             path: string, timestamp: string, nonce: string, pt: string, rnd: nat)
    requires Correct(s) && id in Collect(back, kid).keys
    requires forall k: PrivateKey, k': PrivateKey :: kid(k) == kid(k') ==> k == k'
    requires exists i :: 0 <= i < |front| && IsKey(front[i]) && front[i].material.X25519?
    requires SealRequest(s, s.public(Collect(back, kid).keys[id]), path, timestamp, nonce, pt, rnd).Some?
    ensures var (body, key) := SealRequest(s, s.public(Collect(back, kid).keys[id]), path, timestamp, nonce, pt, rnd).value;
            OpenRequest(s, Collect(front + back, kid).keys, id, path, timestamp, nonce, body) == Ok((pt, key))
  {
    PrependRotates(front, back, kid);
    CollectValid(front, kid);
    CollectValid(back, kid);
    var keys := Collect(front + back, kid).keys;
    assert keys[id] == Collect(back, kid).keys[id];
    var (enc, ctx) := s.encap(s.public(keys[id]), Info(path), rnd).value;
    BodyParts(enc, s.seal(ctx, Aad(timestamp, nonce), pt), ENC_SIZE);
  }
}
