/** Node error messages: how the workers type them, wrap them, and classify the wrapped text. */
module RpcErrors {
  import opened Types

  const NONCE_LOW := "nonce too low"
  const REPLACEMENT := "replacement transaction underpriced"
  const UNDERPRICED := "transaction underpriced"
  const FEE_CAP := "gas fee cap is below the minimum base fee"
  const FUNDS := "insufficient funds for gas"
  const TIMEOUT := "timeout"

  predicate OccursAt(s: string, phrase: string, i: nat) {
    i + |phrase| <= |s| && s[i..i + |phrase|] == phrase
  }

  predicate Contains(s: string, phrase: string) {
    exists i: nat :: i <= |s| && OccursAt(s, phrase, i)
  }

  datatype ChainError = InsufficientGas | GasPriceTooLow | NonceTooLow | ReplacementTxUnderpriced | Network

  const SERVICE := "eth-custodial:"

  function ErrorName(e: ChainError): string {
    match e
    case InsufficientGas => " insufficient gas"
    case GasPriceTooLow => " gas price too low"
    case NonceTooLow => " " + NONCE_LOW
    case ReplacementTxUnderpriced => " replacement tx underpriced"
    case Network => " network related error"
  }

  function ChainErrorText(e: ChainError): string {
    SERVICE + ErrorName(e)
  }

  /** A Go error: some text, or a DispatchError around an original text.  `transport` says that the
      chain of wrapped errors holds a net.Error, a url.Error or an exceeded deadline. */
  datatype GoError = Plain(text: string, transport: bool) | Dispatch(err: ChainError, original: string)

  const WRAP := " (original rpc error: "

  function Text(e: GoError): string {
    match e
    case Plain(text, _) => text
    case Dispatch(err, original) => ChainErrorText(err) + WRAP + original + ")"
  }

  function HandleJsonRpcError(msg: string): Option<ChainError> {
    if Contains(msg, FUNDS) then Some(InsufficientGas)
    else if Contains(msg, REPLACEMENT) then Some(ReplacementTxUnderpriced)
    else if Contains(msg, UNDERPRICED) || Contains(msg, FEE_CAP) then Some(GasPriceTooLow)
    else if Contains(msg, NONCE_LOW) then Some(NonceTooLow)
    else None
  }

  function HandleNetworkError(msg: string, transport: bool): GoError {
    if transport || Contains(msg, TIMEOUT) then Dispatch(Network, msg) else Plain(msg, transport)
  }

  datatype Class = NonceLow | ReplacementUnderpriced | GasPrice | NoGas | NetworkClass | Unknown

  function UnlockerClassify(text: string): Class {
    if Contains(text, NONCE_LOW) then NonceLow
    else if Contains(text, REPLACEMENT) then ReplacementUnderpriced
    else if Contains(text, UNDERPRICED) || Contains(text, FEE_CAP) then GasPrice
    else if Contains(text, FUNDS) then NoGas
    else Unknown
  }

  /** The node complains about the price, and not about the nonce. */
  predicate PriceWords(msg: string) {
    && !Contains(msg, "nonce too low")
    && (Contains(msg, "replacement transaction underpriced") || Contains(msg, "transaction underpriced")
        || Contains(msg, "gas fee cap is below the minimum base fee"))
  }

  /** The node misses funds, and complains about nothing else. */
  predicate FundsWords(msg: string) {
    && Contains(msg, "insufficient funds for gas")
    && !Contains(msg, "nonce too low") && !Contains(msg, "replacement transaction underpriced")
    && !Contains(msg, "transaction underpriced") && !Contains(msg, "gas fee cap is below the minimum base fee")
  }

  /** The node says something else. */
  predicate OtherWords(msg: string) {
    && !Contains(msg, "nonce too low") && !Contains(msg, "replacement transaction underpriced")
    && !Contains(msg, "transaction underpriced") && !Contains(msg, "gas fee cap is below the minimum base fee")
    && !Contains(msg, "insufficient funds for gas")
  }

  /** The classes by what is in the message. */
  lemma ClassByWords(msg: string)
    ensures UnlockerClassify(msg) == NonceLow <==> Contains(msg, "nonce too low")
    ensures UnlockerClassify(msg) in {GasPrice, ReplacementUnderpriced} <==> PriceWords(msg)
    ensures UnlockerClassify(msg) == NoGas <==> FundsWords(msg)
    ensures UnlockerClassify(msg) == Unknown <==> OtherWords(msg)
  {
  }

  lemma LowIsLow(msg: string)
    ensures Contains(msg, NONCE_LOW) ==> UnlockerClassify(msg) == NonceLow
  {
  }

  function CliClassify(text: string, transport: bool): Class {
    if UnlockerClassify(text) != Unknown then UnlockerClassify(text)
    else if transport || Contains(text, TIMEOUT) then NetworkClass
    else Unknown
  }

  /** The error the unlocker's send returns for a JSON-RPC error message. */
  function UnlockerSendError(msg: string): GoError {
    match HandleJsonRpcError(msg)
    case Some(e) => Dispatch(e, msg)
    case None => Plain(msg, false)
  }

  const PHRASES: set<string> := {NONCE_LOW, REPLACEMENT, UNDERPRICED, FEE_CAP, FUNDS}

  lemma Covered(s: string, phrase: string, i: nat, j: nat)
    requires OccursAt(s, phrase, i) && i <= j < i + |phrase|
    ensures j < |s| && s[j] in phrase
  {
    assert s[i..i + |phrase|][j - i] == s[j];
  }

  /** An occurrence of a phrase does not cover a character the phrase lacks. */
  lemma Uncovered(s: string, phrase: string, i: nat, j: nat)
    requires OccursAt(s, phrase, i) && j < |s| && s[j] !in phrase
    ensures j < i || j >= i + |phrase|
  {
    if i <= j < i + |phrase| {
      Covered(s, phrase, i, j);
    }
  }

  /** An occurrence between `left` and `right` is one in the middle. */
  lemma OccursWithin(mid: string, left: string, right: string, phrase: string, i: nat)
    requires |left| <= i && i + |phrase| <= |left| + |mid|
    requires OccursAt(left + mid + right, phrase, i)
    ensures Contains(mid, phrase)
  {
    var s := left + mid + right;
    assert mid[i - |left|..i - |left| + |phrase|] == s[i..i + |phrase|];
    assert OccursAt(mid, phrase, i - |left|);
  }

  lemma ContainsGrows(mid: string, left: string, right: string, phrase: string)
    requires Contains(mid, phrase)
    ensures Contains(left + mid + right, phrase)
  {
    var i: nat :| i <= |mid| && OccursAt(mid, phrase, i);
    var s, j := left + mid + right, |left| + i;
    assert s[j..j + |phrase|] == mid[i..i + |phrase|];
    assert OccursAt(s, phrase, j);
  }

  /** A phrase without the wrapper's punctuation cannot straddle it. */
  lemma NoPhraseSpansWrapper(pre: string, msg: string, post: string, phrase: string)
    requires |pre| >= 2 && pre[|pre| - 2] == ':' && pre[|pre| - 1] == ' '
    requires post == "" || post == ")"
    requires phrase != "" && phrase[0] != ' ' && ':' !in phrase && ')' !in phrase
    ensures Contains(pre + msg + post, phrase) <==> Contains(pre, phrase) || Contains(msg, phrase)
  {
    var s, n, m, k := pre + msg + post, |pre|, |msg|, |phrase|;
    assert "" + pre + (msg + post) == s;
    if Contains(s, phrase) {
      var i: nat :| i <= |s| && OccursAt(s, phrase, i);
      Uncovered(s, phrase, i, n - 2);
      if post != "" {
        Uncovered(s, phrase, i, n + m);
      }
      assert s[i..i + k][0] == s[i];
      if i + k <= n {
        OccursWithin(pre, "", msg + post, phrase, i);
      } else {
        OccursWithin(msg, pre, post, phrase, i);
      }
    }
    if Contains(pre, phrase) {
      ContainsGrows(pre, "", msg + post, phrase);
    }
    if Contains(msg, phrase) {
      ContainsGrows(msg, pre, post, phrase);
    }
  }

  predicate HasPair(s: string, a: char, b: char) {
    exists i :: 0 <= i < |s| - 1 && s[i] == a && s[i + 1] == b
  }

  lemma PhrasePairs(s: string, phrase: string, k: nat)
    requires k + 1 < |phrase| && Contains(s, phrase)
    ensures HasPair(s, phrase[k], phrase[k + 1])
  {
    var i: nat :| i <= |s| && OccursAt(s, phrase, i);
    assert s[i..i + |phrase|][k] == s[i + k] && s[i..i + |phrase|][k + 1] == s[i + k + 1];
  }

  /** Two adjacent characters of a phrase that a text lacks rule the phrase out. */
  lemma PairRulesOut(s: string, phrase: string, k: nat)
    requires k + 1 < |phrase| && !HasPair(s, phrase[k], phrase[k + 1])
    ensures !Contains(s, phrase)
  {
    if Contains(s, phrase) {
      PhrasePairs(s, phrase, k);
    }
  }

  function Prefix(e: ChainError): string {
    ChainErrorText(e) + WRAP
  }

  predicate Clean(s: string) {
    !HasPair(s, 't', 'r') && !HasPair(s, 'f', 'e') && !HasPair(s, 'f', 'u')
  }

  lemma CleanConcat(x: string, y: string)
    requires Clean(x) && Clean(y) && x != "" && y != "" && y[0] == ' '
    ensures Clean(x + y)
    ensures !HasPair(x, 'n', 'o') && !HasPair(y, 'n', 'o') ==> !HasPair(x + y, 'n', 'o')
  {
    forall i | 0 <= i < |x + y| - 1
      ensures !((x + y)[i] == 't' && (x + y)[i + 1] == 'r') && !((x + y)[i] == 'f' && (x + y)[i + 1] in "eu") {
      if i + 1 < |x| { assert x[i] == (x + y)[i]; } else if i >= |x| { assert y[i - |x|] == (x + y)[i]; }
    }
  }

  lemma WrapIsClean()
    ensures Clean(WRAP) && !HasPair(WRAP, 'n', 'o')
  {
    assert WRAP == " (original" + " rpc error: ";
    assert Clean(" (original") && !HasPair(" (original", 'n', 'o');
    assert Clean(" rpc error: ") && !HasPair(" rpc error: ", 'n', 'o');
    hide HasPair, Clean;
    CleanConcat(" (original", " rpc error: ");
  }

  lemma ServiceIsClean()
    ensures Clean(SERVICE) && !HasPair(SERVICE, 'n', 'o')
  {
  }

  lemma InsufficientGasIsClean()
    ensures Clean(" insufficient gas") && !HasPair(" insufficient gas", 'n', 'o')
  {
  }

  lemma GasPriceIsClean()
    ensures Clean(" gas price too low") && !HasPair(" gas price too low", 'n', 'o')
  {
  }

  lemma NonceIsClean()
    ensures Clean(" " + NONCE_LOW)
  {
    assert " " + NONCE_LOW == " nonce too low";
  }

  lemma ReplacementIsClean()
    ensures Clean(" replacement tx underpriced") && !HasPair(" replacement tx underpriced", 'n', 'o')
  {
  }

  lemma NetworkIsClean()
    ensures Clean(" network related error") && !HasPair(" network related error", 'n', 'o')
  {
  }

  lemma PrefixIsClean(e: ChainError)
    ensures Clean(Prefix(e)) && (e != NonceTooLow ==> !HasPair(Prefix(e), 'n', 'o'))
  {
    assert ErrorName(e) != "" && ErrorName(e)[0] == ' ' && WRAP[0] == ' ';
    hide HasPair, Clean;
    WrapIsClean();
    ServiceIsClean();
    match e {
      case InsufficientGas => InsufficientGasIsClean();
      case GasPriceTooLow => GasPriceIsClean();
      case NonceTooLow => NonceIsClean();
      case ReplacementTxUnderpriced => ReplacementIsClean();
      case Network => NetworkIsClean();
    }
    CleanConcat(SERVICE, ErrorName(e));
    CleanConcat(ChainErrorText(e), WRAP);
  }

  lemma CleanTextHoldsNoPhrase(s: string)
    requires Clean(s)
    ensures !Contains(s, UNDERPRICED) && !Contains(s, FEE_CAP) && !Contains(s, FUNDS) && !Contains(s, REPLACEMENT)
    ensures !HasPair(s, 'n', 'o') ==> !Contains(s, NONCE_LOW)
  {
    hide HasPair, Contains;
    PairRulesOut(s, UNDERPRICED, 0);
    PairRulesOut(s, FEE_CAP, 4);
    PairRulesOut(s, FUNDS, 13);
    if !HasPair(s, 'n', 'o') {
      PairRulesOut(s, NONCE_LOW, 0);
    }
    if Contains(s, REPLACEMENT) {
      LongerContainsShorter(s);
    }
  }

  /** The wrapper's own text holds no phrase, but for the one its error stands for. */
  lemma PrefixPhrases(e: ChainError)
    ensures forall p :: p in PHRASES && Contains(Prefix(e), p) ==> e == NonceTooLow && p == NONCE_LOW
  {
    hide HasPair, Contains, Prefix, Clean;
    PrefixIsClean(e);
    CleanTextHoldsNoPhrase(Prefix(e));
  }

  /** "replacement transaction underpriced" contains the phrase of the other fee error. */
  lemma LongerContainsShorter(s: string)
    requires Contains(s, REPLACEMENT)
    ensures Contains(s, UNDERPRICED)
  {
    var i: nat :| i <= |s| && OccursAt(s, REPLACEMENT, i);
    assert REPLACEMENT[12..] == UNDERPRICED;
    assert s[i + 12..i + 12 + |UNDERPRICED|] == s[i..i + |REPLACEMENT|][12..];
    assert OccursAt(s, UNDERPRICED, i + 12);
  }

  /** What a DispatchError's text contains is what the node's message contains. */
  lemma WrapContains(e: ChainError, msg: string, phrase: string)
    requires phrase in PHRASES
    ensures Contains(Text(Dispatch(e, msg)), phrase) <==>
              Contains(msg, phrase) || (e == NonceTooLow && phrase == NONCE_LOW)
  {
    hide Contains, Prefix, ChainErrorText;
    var pre := Prefix(e);
    PrefixEnds(e);
    PhrasesArePlain(phrase);
    NoPhraseSpansWrapper(pre, msg, ")", phrase);
    PrefixPhrases(e);
    TextIs(e, msg);
    if e == NonceTooLow {
      NoncePrefix();
    }
  }

  lemma TextIs(e: ChainError, msg: string)
    ensures Text(Dispatch(e, msg)) == Prefix(e) + msg + ")"
  {
  }

  lemma NoncePrefix()
    ensures Contains(Prefix(NonceTooLow), NONCE_LOW)
  {
    assert OccursAt(NONCE_LOW, NONCE_LOW, 0);
    assert Prefix(NonceTooLow) == (SERVICE + " ") + NONCE_LOW + WRAP;
    ContainsGrows(NONCE_LOW, SERVICE + " ", WRAP, NONCE_LOW);
  }

  lemma PrefixEnds(e: ChainError)
    ensures |Prefix(e)| >= 2 && Prefix(e)[|Prefix(e)| - 2] == ':' && Prefix(e)[|Prefix(e)| - 1] == ' '
  {
    assert WRAP[|WRAP| - 2] == ':' && WRAP[|WRAP| - 1] == ' ';
  }

  lemma PhrasesArePlain(phrase: string)
    requires phrase in PHRASES
    ensures phrase != "" && phrase[0] != ' ' && ':' !in phrase && ')' !in phrase
  {
  }

  /** Classifying a wrapped node error is classifying the node's own message, for every message. */
  lemma WrappingIsTransparent(msg: string)
    ensures UnlockerClassify(Text(UnlockerSendError(msg))) == UnlockerClassify(msg)
  {
    match HandleJsonRpcError(msg)
    case None =>
    case Some(e) =>
      WrapContains(e, msg, NONCE_LOW);
      WrapContains(e, msg, REPLACEMENT);
      WrapContains(e, msg, UNDERPRICED);
      WrapContains(e, msg, FEE_CAP);
      WrapContains(e, msg, FUNDS);
  }

  /** The same for a transport error, whatever its text. */
  lemma NetworkWrappingIsTransparent(msg: string, transport: bool)
    ensures UnlockerClassify(Text(HandleNetworkError(msg, transport))) == UnlockerClassify(msg)
  {
    WrapContains(Network, msg, NONCE_LOW);
    WrapContains(Network, msg, REPLACEMENT);
    WrapContains(Network, msg, UNDERPRICED);
    WrapContains(Network, msg, FEE_CAP);
    WrapContains(Network, msg, FUNDS);
  }

  const SUBMIT := "submit re-signed tx: "

  lemma SubmitIsClean()
    ensures Clean(SUBMIT) && !HasPair(SUBMIT, 'n', 'o')
  {
  }

  /** The command-line unlocker's wrapping of a failed re-sign does not change its class. */
  lemma SubmitWrappingIsTransparent(msg: string)
    ensures UnlockerClassify(SUBMIT + msg) == UnlockerClassify(msg)
  {
    SubmitIsClean();
    assert SUBMIT[|SUBMIT| - 2] == ':' && SUBMIT[|SUBMIT| - 1] == ' ';
    hide Contains, HasPair, Clean;
    CleanTextHoldsNoPhrase(SUBMIT);
    forall p | p in PHRASES ensures Contains(SUBMIT + msg, p) <==> Contains(msg, p) {
      PhrasesArePlain(p);
      NoPhraseSpansWrapper(SUBMIT, msg, "", p);
      assert SUBMIT + msg + "" == SUBMIT + msg;
    }
  }

  function ClassOf(e: ChainError): Class {
    match e
    case InsufficientGas => NoGas
    case GasPriceTooLow => GasPrice
    case NonceTooLow => NonceLow
    case ReplacementTxUnderpriced => ReplacementUnderpriced
    case Network => Unknown
  }

  /** The two classifiers try the phrases in different orders.  They agree exactly on messages where the
      higher-ranked phrase of one is not shadowed: never both funds and another phrase, never both
      "nonce too low" and a fee phrase. */
  lemma ClassifiersAgreeIff(msg: string)
    ensures (match HandleJsonRpcError(msg) case None => Unknown case Some(e) => ClassOf(e)) ==
              UnlockerClassify(msg) <==>
            !(Contains(msg, FUNDS)
              && (Contains(msg, NONCE_LOW) || Contains(msg, UNDERPRICED) || Contains(msg, FEE_CAP))) &&
            !(Contains(msg, NONCE_LOW) && (Contains(msg, UNDERPRICED) || Contains(msg, FEE_CAP)))
  {
    if Contains(msg, REPLACEMENT) {
      LongerContainsShorter(msg);
    }
  }

  /** The longer phrase is never taken for the shorter one it contains. */
  lemma ReplacementIsNotGasPrice(msg: string)
    requires Contains(msg, REPLACEMENT)
    ensures Contains(msg, UNDERPRICED)
    ensures UnlockerClassify(msg) != GasPrice && HandleJsonRpcError(msg) != Some(GasPriceTooLow)
  {
    LongerContainsShorter(msg);
  }
}
