/**
 Two-layer request encryption. The cipher is a parameter: key agreement and authenticated encryption are known only
 through the laws in `Lawful`.
 */
module Encryption {
  import opened Basics
  import opened Checksum

  const KEY_SIZE: nat := 32
  const NONCE_SIZE: nat := 24
  const TAG_SIZE: nat := 16

  type SecretKey = nat
  type SharedKey = nat
  type PublicKey = k: Bytes | |k| == KEY_SIZE witness seq(KEY_SIZE, _ => 0)
  type Nonce = n: Bytes | |n| == NONCE_SIZE witness seq(NONCE_SIZE, _ => 0)

  datatype Cipher = Cipher(
    public: SecretKey -> PublicKey,
    agree: (PublicKey, SecretKey) -> SharedKey,
    seal: (SharedKey, Nonce, Bytes) -> Option<Bytes>,
    open: (SharedKey, Nonce, Bytes) -> Option<Bytes>)

  /** Key agreement is symmetric; what was sealed opens to itself and is longer by the tag. Sealing may fail. */
  ghost predicate Lawful(c: Cipher) {
    && (forall a, b :: c.agree(c.public(a), b) == c.agree(c.public(b), a))
    && (forall k, n, m :: c.seal(k, n, m).Some? ==>
                            && c.open(k, n, c.seal(k, n, m).value) == Some(m)
                            && |c.seal(k, n, m).value| == |m| + TAG_SIZE)
  }

  datatype Outcome<+T> = Ok(value: T) | EncryptionFailed | ForbiddenKey(key: PublicKey) | InvalidLength

  /** What the random number generator contributes to one request. */
  datatype Draws = Draws(innerNonce: Nonce, ephemeral: SecretKey, outerNonce: Nonce)

  function RequestBytes(c: Cipher, msg: Bytes, r: Draws, local: SecretKey, remote: PublicKey): Outcome<Bytes> {
    var inner := c.seal(c.agree(remote, local), r.innerNonce, msg);
    if inner.None? then EncryptionFailed
    else
      var outer := c.seal(c.agree(remote, r.ephemeral), r.outerNonce, c.public(local) + r.innerNonce + inner.value);
      if outer.None? then EncryptionFailed
      else Ok(c.public(r.ephemeral) + r.outerNonce + outer.value)
  }

  function DecryptRequest(c: Cipher, msg: Bytes, local: SecretKey, allowed: PublicKey -> bool)
    : Outcome<(Bytes, PublicKey)>
  {
    if |msg| < KEY_SIZE + NONCE_SIZE then InvalidLength
    else
      var ephemeral: PublicKey, nonce: Nonce := msg[..KEY_SIZE], msg[KEY_SIZE..KEY_SIZE + NONCE_SIZE];
      var outer := c.open(c.agree(ephemeral, local), nonce, msg[KEY_SIZE + NONCE_SIZE..]);
      if outer.None? then EncryptionFailed
      else if |outer.value| < KEY_SIZE then InvalidLength
      else
        var sender: PublicKey := outer.value[..KEY_SIZE];
        if !allowed(sender) then ForbiddenKey(sender)
        else if |outer.value| < KEY_SIZE + NONCE_SIZE then InvalidLength
        else
          var innerNonce: Nonce := outer.value[KEY_SIZE..KEY_SIZE + NONCE_SIZE];
          var inner := c.open(c.agree(sender, local), innerNonce, outer.value[KEY_SIZE + NONCE_SIZE..]);
          if inner.None? then EncryptionFailed else Ok((inner.value, sender))
  }

  /** `a + b + c` taken apart again at the lengths of `a` and `b`. */
  lemma Parts(a: Bytes, b: Bytes, c: Bytes)
    ensures (a + b + c)[..|a|] == a
    ensures (a + b + c)[|a|..|a| + |b|] == b
    ensures (a + b + c)[|a| + |b|..] == c
  {
  }

  /**
   A request opens, for the holder of the addressed key, to the message and the sender's key when that key is allowed,
   and names the sender as forbidden otherwise; on the wire it is 144 bytes longer than the message.
   */
  lemma RequestRoundTrip(
      c: Cipher, msg: Bytes, r: Draws, sender: SecretKey, receiver: SecretKey, allowed: PublicKey -> bool)
    requires Lawful(c) && RequestBytes(c, msg, r, sender, c.public(receiver)).Ok?
    ensures var wire := RequestBytes(c, msg, r, sender, c.public(receiver)).value;
            && |wire| == |msg| + 144
            && DecryptRequest(c, wire, receiver, allowed) ==
               if allowed(c.public(sender)) then Ok((msg, c.public(sender))) else ForbiddenKey(c.public(sender))
  {
    var remote := c.public(receiver);
    var inner := c.seal(c.agree(remote, sender), r.innerNonce, msg).value;
    var outerMsg := c.public(sender) + r.innerNonce + inner;
    var outer := c.seal(c.agree(remote, r.ephemeral), r.outerNonce, outerMsg).value;
    Parts(c.public(r.ephemeral), r.outerNonce, outer);
    Parts(c.public(sender), r.innerNonce, inner);
    assert c.agree(c.public(r.ephemeral), receiver) == c.agree(remote, r.ephemeral);
    assert c.agree(c.public(sender), receiver) == c.agree(remote, sender);
  }

  /** The addressee, whoever holds the key, can open the result; only a failed sealing yields none. */
  method EncryptRequest(c: Cipher, msg: Bytes, r: Draws, local: SecretKey, remote: PublicKey)
    returns (out: Outcome<Bytes>)
    ensures out.Ok? || out.EncryptionFailed?
    ensures (forall k, n, m :: c.seal(k, n, m).Some?) ==> out.Ok?
    ensures Lawful(c) && out.Ok? ==> |out.value| == |msg| + 144
    ensures Lawful(c) && out.Ok? ==>
              forall receiver: SecretKey, allowed: PublicKey -> bool :: c.public(receiver) == remote ==>
                DecryptRequest(c, out.value, receiver, allowed) ==
                if allowed(c.public(local)) then Ok((msg, c.public(local))) else ForbiddenKey(c.public(local))
  {
    var inner := c.seal(c.agree(remote, local), r.innerNonce, msg);
    if inner.None? {
      return EncryptionFailed;
    }
    var outerMsg: Bytes := [];
    outerMsg := outerMsg + c.public(local);
    outerMsg := outerMsg + r.innerNonce;
    outerMsg := outerMsg + inner.value;
    assert outerMsg == c.public(local) + r.innerNonce + inner.value;
    var outer := c.seal(c.agree(remote, r.ephemeral), r.outerNonce, outerMsg);
    if outer.None? {
      return EncryptionFailed;
    }
    var complete: Bytes := [];
    complete := complete + c.public(r.ephemeral);
    complete := complete + r.outerNonce;
    complete := complete + outer.value;
    assert complete == c.public(r.ephemeral) + r.outerNonce + outer.value;
    assert RequestBytes(c, msg, r, local, remote) == Ok(complete);
    forall receiver: SecretKey, allowed: PublicKey -> bool | Lawful(c) && c.public(receiver) == remote
      ensures DecryptRequest(c, complete, receiver, allowed) ==
              if allowed(c.public(local)) then Ok((msg, c.public(local))) else ForbiddenKey(c.public(local))
    {
      RequestRoundTrip(c, msg, r, local, receiver, allowed);
    }
    return Ok(complete);
  }

  // ---- Responses ----

  function ResponseBytes(c: Cipher, msg: Bytes, nonce: Nonce, local: SecretKey, remote: PublicKey): Outcome<Bytes> {
    var sealed := c.seal(c.agree(remote, local), nonce, msg);
    if sealed.None? then EncryptionFailed else Ok(nonce + sealed.value)
  }

  function DecryptResponse(c: Cipher, msg: Bytes, local: SecretKey, remote: PublicKey): Outcome<Bytes> {
    if |msg| < NONCE_SIZE then InvalidLength
    else
      var plain := c.open(c.agree(remote, local), msg[..NONCE_SIZE], msg[NONCE_SIZE..]);
      if plain.None? then EncryptionFailed else Ok(plain.value)
  }

  lemma ResponseRoundTrip(c: Cipher, msg: Bytes, nonce: Nonce, sender: SecretKey, receiver: SecretKey)
    requires Lawful(c) && ResponseBytes(c, msg, nonce, sender, c.public(receiver)).Ok?
    ensures var wire := ResponseBytes(c, msg, nonce, sender, c.public(receiver)).value;
            |wire| == |msg| + 40 && DecryptResponse(c, wire, receiver, c.public(sender)) == Ok(msg)
  {
    var sealed := c.seal(c.agree(c.public(receiver), sender), nonce, msg).value;
    var wire := nonce + sealed;
    assert wire[..NONCE_SIZE] == nonce && wire[NONCE_SIZE..] == sealed;
    assert c.agree(c.public(sender), receiver) == c.agree(c.public(receiver), sender);
  }

  method EncryptResponse(c: Cipher, msg: Bytes, nonce: Nonce, local: SecretKey, remote: PublicKey)
    returns (out: Outcome<Bytes>)
    ensures out.Ok? || out.EncryptionFailed?
    ensures (forall k, n, m :: c.seal(k, n, m).Some?) ==> out.Ok?
    ensures Lawful(c) && out.Ok? ==> |out.value| == |msg| + 40
    ensures Lawful(c) && out.Ok? ==>
              forall receiver :: c.public(receiver) == remote ==>
                DecryptResponse(c, out.value, receiver, c.public(local)) == Ok(msg)
  {
    var sealed := c.seal(c.agree(remote, local), nonce, msg);
    if sealed.None? {
      return EncryptionFailed;
    }
    var complete: Bytes := [];
    complete := complete + nonce;
    complete := complete + sealed.value;
    assert complete == nonce + sealed.value;
    forall receiver | Lawful(c) && c.public(receiver) == remote
      ensures DecryptResponse(c, complete, receiver, c.public(local)) == Ok(msg)
    {
      ResponseRoundTrip(c, msg, nonce, local, receiver);
    }
    return Ok(complete);
  }

  /** The laws are consistent: a cipher that hides nothing satisfies them. */
  lemma LawsAreConsistent()
    ensures exists c :: Lawful(c)
  {
    var tag: Bytes := seq(TAG_SIZE, _ => 0);
    var zero: PublicKey := seq(KEY_SIZE, _ => 0);
    var c := Cipher(
      (sk: SecretKey) => zero,
      (pk: PublicKey, sk: SecretKey) => 0,
      (k: SharedKey, n: Nonce, m: Bytes) => Some(m + tag),
      (k: SharedKey, n: Nonce, m: Bytes) => if |m| < TAG_SIZE then None else Some(m[..|m| - TAG_SIZE]));
    forall k: SharedKey, n: Nonce, m: Bytes
      ensures c.open(k, n, c.seal(k, n, m).value) == Some(m)
    {
      assert (m + tag)[..|m + tag| - TAG_SIZE] == m;
    }
    assert Lawful(c);
  }
}
