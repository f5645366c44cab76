/** Bearer texts and how the service reads them (src/onceproof/service.py). */
module Requests {
  import opened Wrappers
  import opened KeyringCodec
  import opened Schema
  import opened Transactions
  import opened Runs

  // ----- dotted texts -----

  function Split(text: string): (parts: seq<string>)
    ensures |parts| >= 1
  {
    if text == "" then [""]
    else
      var rest := Split(text[1..]);
      if text[0] == '.' then [""] + rest
      else [[text[0]] + rest[0]] + rest[1..]
  }

  function Dotted(a: string, b: string, c: string): string {
    a + "." + b + "." + c
  }

  lemma {:induction false} SplitOne(a: string)
    requires '.' !in a
    ensures Split(a) == [a]
  {
    if a != "" {
      SplitOne(a[1..]);
      assert a == [a[0]] + a[1..];
    }
  }

  lemma {:induction false} SplitFirst(a: string, rest: string)
    requires '.' !in a
    ensures Split(a + "." + rest) == [a] + Split(rest)
  {
    var text := a + "." + rest;
    if a == "" {
      assert text[1..] == rest;
    } else {
      assert text[1..] == a[1..] + "." + rest;
      SplitFirst(a[1..], rest);
      assert a == [a[0]] + a[1..];
      var tail := Split(text[1..]);
      assert tail[0] == a[1..] && tail[1..] == Split(rest);
    }
  }

  lemma {:induction false} PartsAreDotless(text: string)
    ensures forall part :: part in Split(text) ==> '.' !in part
    ensures |Split(text)| == 1 ==> Split(text)[0] == text
  {
    if text != "" {
      PartsAreDotless(text[1..]);
      var rest := Split(text[1..]);
      assert rest[0] in rest;
      forall part | part in Split(text) ensures '.' !in part {
        if text[0] != '.' && part != [text[0]] + rest[0] { assert part in rest[1..]; }
      }
      assert text == [text[0]] + text[1..];
    }
  }

  lemma {:induction false} FirstPart(text: string)
    requires |Split(text)| > 1
    ensures |Split(text)[0]| < |text|
    ensures text == Split(text)[0] + "." + text[|Split(text)[0]| + 1..]
    ensures Split(text)[1..] == Split(text[|Split(text)[0]| + 1..])
  {
    var rest := Split(text[1..]);
    if text[0] == '.' {
      assert text == "." + text[1..];
      assert Split(text)[1..] == rest;
    } else {
      FirstPart(text[1..]);
      var n := |rest[0]|;
      assert text[1..][n + 1..] == text[n + 2..];
      assert text == [text[0]] + text[1..];
      assert Split(text)[1..] == rest[1..];
    }
  }

  lemma JoinThenSplit(a: string, b: string, c: string)
    requires '.' !in a && '.' !in b && '.' !in c
    ensures Split(Dotted(a, b, c)) == [a, b, c]
  {
    hide Split;
    assert Dotted(a, b, c) == a + "." + (b + "." + c);
    SplitFirst(a, b + "." + c);
    SplitFirst(b, c);
    SplitOne(c);
  }

  lemma SplitThenJoin(text: string, a: string, b: string, c: string)
    requires Split(text) == [a, b, c]
    ensures text == Dotted(a, b, c) && '.' !in a && '.' !in b && '.' !in c
  {
    hide Split;
    PartsAreDotless(text);
    assert a == [a, b, c][0] && b == [a, b, c][1] && c == [a, b, c][2];
    FirstPart(text);
    var second := text[|a| + 1..];
    assert [a, b, c][1..] == [b, c];
    FirstPart(second);
    var third := second[|b| + 1..];
    assert [b, c][1..] == [c];
    PartsAreDotless(third);
    assert text == a + "." + (b + "." + c);
  }

  /** Splitting a text into three parts and joining three dotless parts are inverse. */
  lemma ThreeParts(text: string, a: string, b: string, c: string)
    ensures Split(text) == [a, b, c] <==>
            text == Dotted(a, b, c) && '.' !in a && '.' !in b && '.' !in c
  {
    if text == Dotted(a, b, c) && '.' !in a && '.' !in b && '.' !in c {
      JoinThenSplit(a, b, c);
    }
    if Split(text) == [a, b, c] {
      SplitThenJoin(text, a, b, c);
    }
  }

  // ----- proofs and secrets -----

  function ProofKid(proof: string): Option<Kid> {
    var parts := Split(proof);
    if |parts| == 3 && parts[0] == "op1" && parts[2] != "" && IsKid(parts[1]) then Some(parts[1]) else None
  }

  function SecretPrefix(role: Role): string {
    if role == Issuance then "opi1" else "opv1"
  }

  function IdPrefix(role: Role): string {
    if role == Issuance then "ic_" else "vc_"
  }

  function CredentialIdFromSecret(secret: string, role: Role): Option<Id> {
    var parts := Split(secret);
    if |parts| == 3 && parts[0] == SecretPrefix(role) && parts[1] != "" && parts[2] != "" && IdPrefix(role) <= parts[1]
    then Some(parts[1]) else None
  }

  function BearerProof(kid: Kid, random: string): string {
    Dotted("op1", kid, random)
  }

  function BearerSecret(role: Role, credentialId: Id, random: string): string {
    Dotted(SecretPrefix(role), credentialId, random)
  }

  lemma ProofIsBearer(proof: string, kid: Kid)
    ensures ProofKid(proof) == Some(kid) <==>
            IsKid(kid) && '.' !in kid
            && exists random :: random != "" && '.' !in random && proof == BearerProof(kid, random)
  {
    var parts := Split(proof);
    if ProofKid(proof) == Some(kid) {
      assert parts == ["op1", kid, parts[2]];
      ThreeParts(proof, "op1", kid, parts[2]);
      assert proof == BearerProof(kid, parts[2]);
    }
    if random :| random != "" && '.' !in random && proof == BearerProof(kid, random) {
      if IsKid(kid) && '.' !in kid {
        ThreeParts(proof, "op1", kid, random);
      }
    }
  }

  /** A proof names exactly the key it was minted under. */
  lemma ProofNamesItsKey(proof: string, kid: Kid)
    ensures ProofKid(proof) == Some(kid) <==>
            "hk_" <= kid && '.' !in kid
            && exists random :: random != "" && '.' !in random && proof == "op1." + kid + "." + random
    ensures forall random :: BearerProof(kid, random) == "op1." + kid + "." + random
  {
    forall random: string ensures BearerProof(kid, random) == "op1." + kid + "." + random {
      assert "op1" + "." == "op1.";
    }
    ProofIsBearer(proof, kid);
  }

  lemma SecretIsBearer(secret: string, role: Role, id: Id)
    ensures CredentialIdFromSecret(secret, role) == Some(id) <==>
            IdPrefix(role) <= id && '.' !in id
            && exists random :: random != "" && '.' !in random && secret == BearerSecret(role, id, random)
  {
    var parts := Split(secret);
    if CredentialIdFromSecret(secret, role) == Some(id) {
      assert parts == [SecretPrefix(role), id, parts[2]];
      ThreeParts(secret, SecretPrefix(role), id, parts[2]);
      assert secret == BearerSecret(role, id, parts[2]);
    }
    if random :| random != "" && '.' !in random && secret == BearerSecret(role, id, random) {
      if IdPrefix(role) <= id && '.' !in id {
        ThreeParts(secret, SecretPrefix(role), id, random);
      }
    }
  }

  /** A secret names exactly the credential and role it was minted for. */
  lemma SecretNamesItsCredential(secret: string, role: Role, id: Id)
    ensures CredentialIdFromSecret(secret, role) == Some(id) <==>
            (if role == Issuance then "ic_" <= id else "vc_" <= id) && '.' !in id
            && exists random :: random != "" && '.' !in random
                 && secret == (if role == Issuance then "opi1." else "opv1.") + id + "." + random
    ensures forall random ::
              BearerSecret(role, id, random) == (if role == Issuance then "opi1." else "opv1.") + id + "." + random
  {
    forall random: string
      ensures BearerSecret(role, id, random) == (if role == Issuance then "opi1." else "opv1.") + id + "." + random
    {
      assert "opi1" + "." == "opi1." && "opv1" + "." == "opv1.";
    }
    SecretIsBearer(secret, role, id);
  }

  /** No text is a secret of both roles. */
  lemma RolesNeverConfused(secret: string)
    ensures CredentialIdFromSecret(secret, Issuance).None? || CredentialIdFromSecret(secret, Role.Verification).None?
  {
    assert SecretPrefix(Issuance)[2] != SecretPrefix(Role.Verification)[2];
  }

  // ----- what the service computes from its keyring -----

  /** The digest a presented proof is looked up by; an unknown key falls back to an unkeyed digest. */
  function PresentedDigest(ring: Ring, proof: string): TokenDigest {
    var kid := ProofKid(proof);
    if kid.Some? && kid.value in ring.keys then Keyed(ring.keys[kid.value], proof) else Plain(proof)
  }

  function Authenticate(l: Ledger, ring: Ring, secret: string, role: Role, now: int): Option<Id> {
    var id := CredentialIdFromSecret(secret, role);
    if id.None? || id.value !in l.credentials then None
    else
      var c := l.credentials[id.value];
      if c.role != role || c.hashKid !in ring.keys then None
      else if c.secretDigest != SecretDigest(ring.keys[c.hashKid], secret) then None
      else if Accepted(c, now) then id
      else None
  }

  /** A verification request as it reaches the service. */
  datatype Presentation = Presentation(
    secret: string, proof: string, subject: string, purpose: string, audience: string, key: Option<string>)

  function VerifyOp(ring: Ring, credentialId: Id, clientId: Id, p: Presentation, now: int, decisionId: Id,
                    eventId: Id): Op {
    Verify(credentialId, clientId, Request(PresentedDigest(ring, p.proof), p.subject, p.purpose, p.audience), p.key,
           now, decisionId, eventId)
  }
}
