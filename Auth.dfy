/** The encoded-password format of sprout/core/auth.py (`PassHash`):
    `algorithm$iterations$salt$hash`. The key derivation and its base64
    encoding are a parameter: any deterministic function whose text is
    drawn from the base64 alphabet. */
module Auth {
  import opened Wrappers
  import opened Text

  /** `PassHash.algorithm`. */
  const Algorithm: string := "pbkdf2_sha256"

  /** Iterations used when none (or zero) are given. */
  const DefaultIterations: int := 20000

  /** The largest iteration count the key derivation accepts (a C `int`). */
  const MaxIterations: int := 0x7fff_ffff

  predicate IsBase64Char(c: char)
  {
    ('A' <= c <= 'Z') || ('a' <= c <= 'z') || ('0' <= c <= '9') || c == '+' || c == '/' || c == '='
  }

  /** The text of `base64.b64encode(...).decode('ascii').strip()`. */
  type Digest = s: string | forall i :: 0 <= i < |s| ==> IsBase64Char(s[i])

  /** `pbkdf2(password, salt, iterations)` followed by base64 encoding. */
  type Hasher = (string, string, int) -> Digest

  /** The exceptions `encode` and `verify` raise. */
  datatype AuthError =
    | Malformed          // "malformed password or salt"
    | BadIterations      // the key derivation rejects the iteration count
    | NotEnoughFields    // fewer than four `$`-separated fields to unpack
    | AlgorithmMismatch  // "algorithm mismatch"
    | NotAnInteger       // `int(iterations)` fails

  /** `iterations or 20000`. */
  function Effective(iterations: Option<int>): (it: int)
    ensures iterations.None? || iterations == Some(0) ==> it == DefaultIterations
    ensures iterations.Some? && iterations.value != 0 ==> it == iterations.value
  {
    if iterations.None? || iterations.value == 0 then DefaultIterations else iterations.value
  }

  /** `PassHash.encode(password, salt, iterations)`. */
  function Encode(hash: Hasher, password: Option<string>, salt: Option<string>, iterations: Option<int>)
    : Result<string, AuthError>
  {
    if password.None? || salt.None? || '$' in salt.value then Err(Malformed)
    else
      var it := Effective(iterations);
      if it < 1 || it > MaxIterations then Err(BadIterations)
      else Ok(Join([Algorithm, NatToString(it), salt.value, hash(password.value, salt.value, it)], '$'))
  }

  /** `PassHash.verify(password, encoded)`; the constant-time comparison is equality. */
  function Verify(hash: Hasher, password: Option<string>, encoded: string): Result<bool, AuthError>
  {
    var fields := SplitN(encoded, '$', 3);
    if |fields| < 4 then Err(NotEnoughFields)
    else if fields[0] != Algorithm then Err(AlgorithmMismatch)
    else match ParseInt(fields[1])
      case None => Err(NotAnInteger)
      case Some(it) =>
        match Encode(hash, password, Some(fields[2]), Some(it))
        case Err(e) => Err(e)
        case Ok(other) => Ok(encoded == other)
  }

  /** `encode` refuses a missing password, a missing salt or a salt holding
      `$`, and otherwise fails only on an iteration count the key
      derivation rejects. */
  lemma EncodeErrors(hash: Hasher, password: Option<string>, salt: Option<string>, iterations: Option<int>)
    ensures Encode(hash, password, salt, iterations) == Err(Malformed)
        <==> password.None? || salt.None? || '$' in salt.value
    ensures Encode(hash, password, salt, iterations).Ok?
        <==> password.Some? && salt.Some? && '$' !in salt.value
             && 1 <= Effective(iterations) <= MaxIterations
  {
  }

  /** No iterations, zero iterations and 20000 iterations encode alike. */
  lemma DefaultIterationsAgree(hash: Hasher, password: Option<string>, salt: Option<string>)
    ensures Encode(hash, password, salt, None) == Encode(hash, password, salt, Some(0))
    ensures Encode(hash, password, salt, None) == Encode(hash, password, salt, Some(DefaultIterations))
  {
  }

  lemma AlgorithmPlain()
    ensures '$' !in Algorithm
  {
  }

  /** The four parts of an encoded password, none of which holds `$`. */
  lemma PartsPlain(p: string, salt: string, it: nat, h: Digest)
    requires '$' !in salt
    ensures forall i :: 0 <= i < 4 ==> '$' !in [Algorithm, NatToString(it), salt, h][i]
  {
    AlgorithmPlain();
    var parts := [Algorithm, NatToString(it), salt, h];
    assert '$' !in NatToString(it) by {
      forall i | 0 <= i < |NatToString(it)| ensures NatToString(it)[i] != '$' {
        assert IsDigit(NatToString(it)[i]);
      }
    }
    assert '$' !in h by {
      forall i | 0 <= i < |h| ensures h[i] != '$' {
        assert IsBase64Char(h[i]);
      }
    }
  }

  /** `encoded.split('$', 3)` on an `encode` output gives back the algorithm,
      the iterations text, the salt and the hash, unchanged, and the
      iterations text reads back as the count used. */
  lemma EncodeSplits(hash: Hasher, password: string, salt: string, iterations: Option<int>)
    requires Encode(hash, Some(password), Some(salt), iterations).Ok?
    ensures var it := Effective(iterations);
            var e := Encode(hash, Some(password), Some(salt), iterations).value;
      && 1 <= it <= MaxIterations
      && SplitN(e, '$', 3) == [Algorithm, NatToString(it), salt, hash(password, salt, it)]
      && ParseInt(NatToString(it)) == Some(it)
  {
    var it := Effective(iterations);
    PartsPlain(password, salt, it, hash(password, salt, it));
    SplitJoin([Algorithm, NatToString(it), salt, hash(password, salt, it)], '$', 3);
    ParseNatToString(it);
  }

  /** Verifying any password against an `encode` output re-derives the hash
      with the stored salt and count: the answer is whether the two hashes agree. */
  lemma VerifyEncoded(hash: Hasher, p: string, q: string, salt: string, iterations: Option<int>)
    requires Encode(hash, Some(p), Some(salt), iterations).Ok?
    ensures var it := Effective(iterations);
      Verify(hash, Some(q), Encode(hash, Some(p), Some(salt), iterations).value)
        == Ok(hash(q, salt, it) == hash(p, salt, it))
  {
    var it := Effective(iterations);
    var e := Encode(hash, Some(p), Some(salt), iterations).value;
    EncodeSplits(hash, p, salt, iterations);
    assert Effective(Some(it)) == it;
    var other := Encode(hash, Some(q), Some(salt), Some(it));
    assert other.Ok?;
    EncodeSplits(hash, q, salt, Some(it));
    if e == other.value {
      assert SplitN(e, '$', 3)[3] == SplitN(other.value, '$', 3)[3];
    }
  }

  /** Round trip: a password verifies against its own encoding. */
  lemma VerifyOwnEncoding(hash: Hasher, p: string, salt: string, iterations: Option<int>)
    requires Encode(hash, Some(p), Some(salt), iterations).Ok?
    ensures Verify(hash, Some(p), Encode(hash, Some(p), Some(salt), iterations).value) == Ok(true)
  {
    VerifyEncoded(hash, p, p, salt, iterations);
  }

  /** Unpacking fails exactly when the text holds fewer than three `$`. */
  lemma VerifyNeedsFourFields(hash: Hasher, password: Option<string>, encoded: string)
    ensures Verify(hash, password, encoded) == Err(NotEnoughFields) <==> Count(encoded, '$') < 3
  {
    SplitCount(encoded, '$', 3);
  }

  /** With four fields, a first field other than `pbkdf2_sha256` is an
      algorithm mismatch, and that is the only way to get one. */
  lemma VerifyChecksAlgorithm(hash: Hasher, password: Option<string>, encoded: string)
    ensures Verify(hash, password, encoded) == Err(AlgorithmMismatch)
        <==> Count(encoded, '$') >= 3 && SplitN(encoded, '$', 3)[0] != Algorithm
  {
    SplitCount(encoded, '$', 3);
  }

  /** With no password, verification fails as `encode` does, whatever the text. */
  lemma VerifyNoPassword(hash: Hasher, encoded: string)
    requires |SplitN(encoded, '$', 3)| == 4 && SplitN(encoded, '$', 3)[0] == Algorithm
    requires ParseInt(SplitN(encoded, '$', 3)[1]).Some?
    ensures Verify(hash, None, encoded) == Err(Malformed)
  {
  }

  lemma DefaultIterationsText()
    ensures NatToString(DefaultIterations as nat) == "20000"
  {
  }

  /** With no iterations given, the encoding is `pbkdf2_sha256$20000$<salt>$<hash>`. */
  lemma EncodeDefaultFormat(hash: Hasher, password: string, salt: string)
    requires '$' !in salt
    ensures Encode(hash, Some(password), Some(salt), None)
         == Ok("pbkdf2_sha256$20000$" + salt + "$" + hash(password, salt, 20000))
  {
    DefaultIterationsText();
    var h := hash(password, salt, 20000);
    var t2 := [salt, h];
    var t1 := ["20000", salt, h];
    var parts := [Algorithm, "20000", salt, h];
    assert t2[1..] == [h];
    assert Join(t2, '$') == salt + "$" + h;
    assert t1[1..] == t2;
    assert Join(t1, '$') == "20000" + "$" + (salt + "$" + h);
    assert parts[1..] == t1;
    assert Join(parts, '$') == Algorithm + "$" + ("20000" + "$" + (salt + "$" + h));
    var x := salt + "$" + h;
    assert Algorithm + "$" + ("20000" + "$" + x) == (Algorithm + "$" + "20000" + "$") + x;
    assert Algorithm + "$" + "20000" + "$" == "pbkdf2_sha256$20000$";
    assert "pbkdf2_sha256$20000$" + x == "pbkdf2_sha256$20000$" + salt + "$" + h;
    assert Encode(hash, Some(password), Some(salt), None) == Ok(Join(parts, '$'));
  }
}
