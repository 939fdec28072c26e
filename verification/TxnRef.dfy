/** Transaction references and the fee references built on them (utils/txnRef.ts). */
module TxnRef {
  import opened Wrappers
  import opened Text

  const ON_PREFIX := "ON-"
  const OFF_PREFIX := "OFF-"
  const FEE_SUFFIX := "-FEE"
  const HEX_LEN := 24

  predicate IsHex(c: char) {
    '0' <= c <= '9' || 'a' <= c <= 'f'
  }

  /** A prefix and 24 lower-case hex digits. */
  predicate HasForm(s: string, prefix: string) {
    |s| == |prefix| + HEX_LEN && s[..|prefix|] == prefix && forall i :: |prefix| <= i < |s| ==> IsHex(s[i])
  }

  predicate IsOnrampTxnRef(s: string) {
    HasForm(Trim(s), ON_PREFIX)
  }

  predicate IsOfframpTxnRef(s: string) {
    HasForm(Trim(s), OFF_PREFIX)
  }

  lemma HexDigit(c: char)
    ensures IsHex(c) <==> c in "0123456789abcdef"
  {
  }

  lemma FormExactly(s: string, prefix: string)
    ensures HasForm(s, prefix) <==>
              exists digits: string :: |digits| == 24 && (forall i :: 0 <= i < 24 ==> digits[i] in "0123456789abcdef") && s == prefix + digits
  {
    forall c: char ensures IsHex(c) <==> c in "0123456789abcdef" { HexDigit(c); }
    hide IsHex;
    if HasForm(s, prefix) {
      var digits := s[|prefix|..];
      assert s == prefix + digits;
      assert forall i :: 0 <= i < 24 ==> digits[i] in "0123456789abcdef";
    }
  }

  /** An onramp's reference is ON- and 24 lower-case hexadecimal digits, an offramp's OFF- and as many, blanks around aside. */
  lemma ReferencesExactly(s: string)
    ensures IsOnrampTxnRef(s) <==> HasForm(Trim(s), "ON-")
    ensures IsOfframpTxnRef(s) <==> HasForm(Trim(s), "OFF-")
  {
  }

  function BuildFeeReference(txnRef: string): string {
    Trim(txnRef) + FEE_SUFFIX
  }

  predicate EndsWith(s: string, suffix: string) {
    |s| >= |suffix| && s[|s| - |suffix|..] == suffix
  }

  function ParseFeeParent(clientRef: string): Option<string> {
    var s := Trim(clientRef);
    if EndsWith(s, FEE_SUFFIX) then Some(s[..|s| - |FEE_SUFFIX|]) else None
  }

  function ParseOnrampFeeReference(clientRef: string): Option<string> {
    var parent := ParseFeeParent(clientRef);
    if parent.Some? && IsOnrampTxnRef(parent.value) then parent else None
  }

  function ParseOfframpFeeReference(clientRef: string): Option<string> {
    var parent := ParseFeeParent(clientRef);
    if parent.Some? && IsOfframpTxnRef(parent.value) then parent else None
  }

  lemma TrimIsIdempotent(s: string)
    ensures Trim(Trim(s)) == Trim(s)
  {
    TrimFixesClean(Trim(s));
  }

  /** A reference, turned into a fee reference, reads back trimmed. */
  lemma FeeReferenceReadsBack(txnRef: string)
    requires Trim(txnRef) != ""
    ensures ParseFeeParent(BuildFeeReference(txnRef)) == Some(Trim(txnRef))
  {
    var s := BuildFeeReference(txnRef);
    assert Clean(s) by {
      assert s[0] == Trim(txnRef)[0];
      assert s[|s| - 1] == 'E';
    }
    TrimFixesClean(s);
    assert s[|s| - |FEE_SUFFIX|..] == FEE_SUFFIX && s[..|s| - |FEE_SUFFIX|] == Trim(txnRef);
  }

  /** The fee reference of a blank reference has a blank parent. */
  lemma BlankReadsBack(txnRef: string)
    requires Trim(txnRef) == ""
    ensures ParseFeeParent(BuildFeeReference(txnRef)) == Some("")
  {
    var s := BuildFeeReference(txnRef);
    assert s == FEE_SUFFIX && |FEE_SUFFIX| == 4 && FEE_SUFFIX[0] == '-' && FEE_SUFFIX[3] == 'E';
    TrimFixesClean(s);
    assert s[|s| - |FEE_SUFFIX|..] == FEE_SUFFIX && s[..|s| - |FEE_SUFFIX|] == "";
  }

  /** The two parsers are exact and never both accept: each reads back its own kind of reference, and nothing else. */
  lemma FeeReferencesAreExact(txnRef: string)
    ensures ParseOnrampFeeReference(BuildFeeReference(txnRef)) == (if IsOnrampTxnRef(txnRef) then Some(Trim(txnRef)) else None)
    ensures ParseOfframpFeeReference(BuildFeeReference(txnRef)) == (if IsOfframpTxnRef(txnRef) then Some(Trim(txnRef)) else None)
    ensures !(IsOnrampTxnRef(txnRef) && IsOfframpTxnRef(txnRef))
  {
    if Trim(txnRef) == "" {
      BlankReadsBack(txnRef);
    } else {
      FeeReferenceReadsBack(txnRef);
    }
    TrimIsIdempotent(txnRef);
    assert |ON_PREFIX| == 3 && |OFF_PREFIX| == 4;
  }

  /** A reference itself is never taken for a fee reference. */
  lemma PlainReferenceIsNoFeeReference(txnRef: string)
    requires IsOnrampTxnRef(txnRef) || IsOfframpTxnRef(txnRef)
    ensures ParseFeeParent(txnRef).None?
  {
    var s := Trim(txnRef);
    assert IsHex(s[|s| - 1]) && !IsHex('E');
    assert s[|s| - 4..][3] == s[|s| - 1] && |FEE_SUFFIX| == 4 && FEE_SUFFIX[3] == 'E';
  }

  // ---------- idempotency keys ----------

  datatype Keyed =
    | OnrampCrypto(txnRef: string)
    | OfframpFiat(txnRef: string)
    | OfframpReissue(txnRef: string, withdrawalId: string)
    | OnrampFee(txnRef: string)
    | OfframpFee(txnRef: string)

  /** The provider's idempotency key of each kind of withdrawal. */
  function KeyText(k: Keyed): string {
    match k
    case OnrampCrypto(ref) => "onramp-crypto-wd:" + ref
    case OfframpFiat(ref) => "offramp-fiat-wd:" + ref
    case OfframpReissue(ref, id) => "offramp-fiat-reissue:" + ref + ":" + id
    case OnrampFee(ref) => "onramp-fee-settlement:" + ref
    case OfframpFee(ref) => "offramp-fee-settlement:" + ref
  }

  function KeyHead(k: Keyed): string {
    match k
    case OnrampCrypto(_) => "onramp-crypto-wd"
    case OfframpFiat(_) => "offramp-fiat-wd"
    case OfframpReissue(_, _) => "offramp-fiat-reissue"
    case OnrampFee(_) => "onramp-fee-settlement"
    case OfframpFee(_) => "offramp-fee-settlement"
  }

  function KeyTail(k: Keyed): string {
    if k.OfframpReissue? then k.txnRef + ":" + k.withdrawalId else k.txnRef
  }

  lemma KeyParts(k: Keyed)
    ensures KeyText(k) == KeyHead(k) + ":" + KeyTail(k) && ':' !in KeyHead(k)
  {
    match k
    case OnrampCrypto(ref) => assert "onramp-crypto-wd:" == "onramp-crypto-wd" + ":";
    case OfframpFiat(ref) => assert "offramp-fiat-wd:" == "offramp-fiat-wd" + ":";
    case OfframpReissue(ref, id) =>
      assert "offramp-fiat-reissue:" == "offramp-fiat-reissue" + ":";
      assert "offramp-fiat-reissue:" + ref + ":" + id == "offramp-fiat-reissue:" + (ref + ":" + id);
    case OnrampFee(ref) => assert "onramp-fee-settlement:" == "onramp-fee-settlement" + ":";
    case OfframpFee(ref) => assert "offramp-fee-settlement:" == "offramp-fee-settlement" + ":";
  }

  lemma HeadsDiffer(j: Keyed, k: Keyed)
    requires KeyHead(j) == KeyHead(k)
    ensures j.OnrampCrypto? <==> k.OnrampCrypto?
    ensures j.OfframpFiat? <==> k.OfframpFiat?
    ensures j.OfframpReissue? <==> k.OfframpReissue?
    ensures j.OnrampFee? <==> k.OnrampFee?
    ensures j.OfframpFee? <==> k.OfframpFee?
  {
    assert |"onramp-crypto-wd"| == 16 && |"offramp-fiat-wd"| == 15 && |"offramp-fiat-reissue"| == 20;
    assert |"onramp-fee-settlement"| == 21 && |"offramp-fee-settlement"| == 22;
  }

  /**
   Two withdrawals have the same idempotency key only if they are the same withdrawal, so the provider never replays one
   for another; no reference contains a colon.
   */
  lemma KeysAreInjective(j: Keyed, k: Keyed)
    requires ':' !in j.txnRef && ':' !in k.txnRef && KeyText(j) == KeyText(k)
    ensures j == k
  {
    KeyParts(j);
    KeyParts(k);
    SplitAtColon(KeyHead(j), KeyTail(j), KeyHead(k), KeyTail(k));
    HeadsDiffer(j, k);
    if j.OfframpReissue? { SplitAtColon(j.txnRef, j.withdrawalId, k.txnRef, k.withdrawalId); }
  }
}
