/** Redaction of secret-looking members of a JSON tree (audit.py). */
module Redaction {
  import opened Json
  import opened Text

  const SECRET_MARKERS: seq<string> := [
    "token", "secret", "password",
    "privatekey", "private_key", "private-key",
    "apikey", "api_key", "api-key",
    "credential", "passphrase", "webhook"
  ]

  predicate IsSecretKey(key: string) {
    exists m | m in SECRET_MARKERS :: Contains(Lower(key), m)
  }

  const MASK := "[REDACTED"

  /** The text put in place of a secret; `fingerprint` is the shortened SHA-256. */
  function RedactedValue(v: Value, fingerprint: string -> string): string {
    if v.Str? && v.s != "" then MASK + " sha256:" + fingerprint(v.s) + "]" else MASK + "]"
  }

  function Redact(v: Value, fingerprint: string -> string): Value {
    match v
    case Obj(fields) =>
      Obj(map key | key in fields ::
            if IsSecretKey(key) then Str(RedactedValue(fields[key], fingerprint))
            else Redact(fields[key], fingerprint))
    case Arr(items) =>
      Arr(seq(|items|, i requires 0 <= i < |items| => Redact(items[i], fingerprint)))
    case _ => v
  }

  // ------------------------------------------------------- what redaction removes

  /** Every member with a secret-looking key, at any depth, holds a mask. */
  ghost predicate Masked(v: Value) {
    match v
    case Obj(fields) =>
      forall key :: key in fields ==>
        if IsSecretKey(key) then fields[key].Str? && StartsWith(fields[key].s, MASK)
        else Masked(fields[key])
    case Arr(items) => forall i :: 0 <= i < |items| ==> Masked(items[i])
    case _ => true
  }

  lemma {:induction false} NoSecretMemberSurvives(v: Value, fingerprint: string -> string)
    ensures Masked(Redact(v, fingerprint))
  {
    hide IsSecretKey;
    match v
    case Obj(fields) =>
      forall key | key in fields {
        NoSecretMemberSurvives(fields[key], fingerprint);
      }
    case Arr(items) =>
      forall i | 0 <= i < |items| {
        NoSecretMemberSurvives(items[i], fingerprint);
      }
    case _ =>
  }

  predicate IsSecretText(v: Value) { v.Str? && v.s != "" }

  /** Neither is a non-empty text, or both are and have the same fingerprint. */
  predicate SameSecret(v: Value, w: Value, fingerprint: string -> string) {
    if IsSecretText(v) && IsSecretText(w) then fingerprint(v.s) == fingerprint(w.s)
    else !IsSecretText(v) && !IsSecretText(w)
  }

  lemma MasksTellSecretsApart(v: Value, w: Value, fingerprint: string -> string)
    ensures RedactedValue(v, fingerprint) == RedactedValue(w, fingerprint) <==> SameSecret(v, w, fingerprint)
  {
    MaskShape(v, fingerprint);
    MaskShape(w, fingerprint);
  }

  lemma MaskShape(v: Value, fingerprint: string -> string)
    ensures var mask := RedactedValue(v, fingerprint);
            if IsSecretText(v) then |mask| >= 18 && mask[9] == ' ' && mask[17..|mask| - 1] == fingerprint(v.s)
            else mask == "[REDACTED]" && mask[9] == ']'
  {
  }

  /** Two trees that differ only below secret-looking keys, where each secret text has the
      same fingerprint, are redacted to the same public tree: nothing but the fingerprint
      of a secret is revealed. */
  ghost predicate SamePublicly(a: Value, b: Value, fingerprint: string -> string) {
    match (a, b)
    case (Obj(f), Obj(g)) =>
      && f.Keys == g.Keys
      && forall key :: key in f ==>
           if IsSecretKey(key) then SameSecret(f[key], g[key], fingerprint)
           else SamePublicly(f[key], g[key], fingerprint)
    case (Arr(x), Arr(y)) =>
      |x| == |y| && forall i :: 0 <= i < |x| ==> SamePublicly(x[i], y[i], fingerprint)
    case _ => a == b
  }

  lemma {:induction false} OnlyFingerprintsAreRevealed(a: Value, b: Value, fingerprint: string -> string)
    ensures SamePublicly(a, b, fingerprint) <==> Redact(a, fingerprint) == Redact(b, fingerprint)
  {
    hide IsSecretKey, RedactedValue, SameSecret;
    match (a, b)
    case (Obj(f), Obj(g)) =>
      var rf, rg := Redact(a, fingerprint).fields, Redact(b, fingerprint).fields;
      assert rf.Keys == f.Keys && rg.Keys == g.Keys;
      forall key | key in f && key in g
        ensures rf[key] == rg[key] <==>
                if IsSecretKey(key) then SameSecret(f[key], g[key], fingerprint)
                else SamePublicly(f[key], g[key], fingerprint)
      {
        MasksTellSecretsApart(f[key], g[key], fingerprint);
        OnlyFingerprintsAreRevealed(f[key], g[key], fingerprint);
      }
      if SamePublicly(a, b, fingerprint) {
        assert rf == rg;
      }
    case (Arr(x), Arr(y)) =>
      var rx, ry := Redact(a, fingerprint).items, Redact(b, fingerprint).items;
      if |x| == |y| {
        forall i | 0 <= i < |x| ensures rx[i] == ry[i] <==> SamePublicly(x[i], y[i], fingerprint) {
          OnlyFingerprintsAreRevealed(x[i], y[i], fingerprint);
        }
        if SamePublicly(a, b, fingerprint) {
          assert rx == ry;
        }
      }
    case _ =>
  }

  // ------------------------------------------------------- what redaction keeps

  datatype Found = Missing | Found(value: Value)

  /** The value at the end of a path of member names. */
  function Lookup(v: Value, path: seq<string>): Found {
    if path == [] then Found(v)
    else if v.Obj? && path[0] in v.fields then Lookup(v.fields[path[0]], path[1..])
    else Missing
  }

  /** A path without secret-looking names leads to the same place after redaction. */
  lemma {:induction false} PublicPathsSurvive(v: Value, path: seq<string>, fingerprint: string -> string)
    requires forall i :: 0 <= i < |path| ==> !IsSecretKey(path[i])
    ensures Lookup(Redact(v, fingerprint), path)
         == match Lookup(v, path)
            case Missing => Missing
            case Found(w) => Found(Redact(w, fingerprint))
  {
    hide IsSecretKey;
    if path != [] && v.Obj? && path[0] in v.fields {
      PublicPathsSurvive(v.fields[path[0]], path[1..], fingerprint);
    }
  }

  lemma OccurrenceHead(s: string, part: string, i: int)
    requires OccursAt(s, part, i) && |part| >= 3
    ensures s[i] == part[0] && s[i + 1] == part[1] && s[i + 2] == part[2]
  {
    var piece := s[i..i + |part|];
    assert piece[0] == s[i] && piece[1] == s[i + 1] && piece[2] == s[i + 2];
  }

  /** The two member names the verification gate reads are not secret-looking. */
  lemma PendingSafeIsPublic()
    ensures !IsSecretKey("pending_safe") && !IsSecretKey("details")
  {
    forall key | key in {"pending_safe", "details"} ensures !IsSecretKey(key) {
      var low := Lower(key);
      forall m, i | m in SECRET_MARKERS && 0 <= i <= |low| ensures !OccursAt(low, m, i) {
        if OccursAt(low, m, i) {
          OccurrenceHead(low, m, i);
        }
      }
    }
  }
}
