/**
 * The proof record the iframe host builds from a `TransactionSigned` payload
 * before handing it to the submission buffer
 * (`scheduleTransactionDetailsForServerSubmission` in
 * pretix_eth/web3modal/src/core.js).
 *
 * The record is a plain JavaScript object: an insertion-ordered list of keys
 * and a value per key. Nine keys are set by an object literal, whatever their
 * values (an absent payload field gives the value `undefined`); five more are
 * copied one by one, each only when the payload defines it. The signed message
 * is sent as its `JSON.stringify` text, which the model keeps opaque.
 *
 * `ProofOf` describes the record declaratively; `Serialize` builds it the way
 * the script does and is proved to agree with it.
 */
module ProofRecord {
  import opened Js

  /** The fourteen keys the record can hold. */
  datatype Key =
    | SenderAddress | Signature | Message | TransactionHash | ChainId
    | TokenTicker | TokenName | TokenAmount | TokenDecimals
    | ReceiptUrl | TokenCurrency | TokenContractAddress | ChainName | IsTestnet

  /** The property name of a key, in the record and (except for the first
      three) in the payload it is read from. */
  function Name(k: Key): string {
    match k
    case SenderAddress => "senderAddress"
    case Signature => "signature"
    case Message => "message"
    case TransactionHash => "transactionHash"
    case ChainId => "chainId"
    case TokenTicker => "tokenTicker"
    case TokenName => "tokenName"
    case TokenAmount => "tokenAmount"
    case TokenDecimals => "tokenDecimals"
    case ReceiptUrl => "receiptUrl"
    case TokenCurrency => "tokenCurrency"
    case TokenContractAddress => "tokenContractAddress"
    case ChainName => "chainName"
    case IsTestnet => "isTestnet"
  }

  /** The payload field holding the signed message, and the one holding its
      signature. */
  const MessageField := "caip222StyleMessageThatWasSigned"
  const SignatureField := "caip222StyleSignature"

  /** A record value: a payload value as it is, or the JSON text of one. */
  datatype FieldValue = Plain(v: JsValue) | Serialized(of: JsValue)

  /** A plain object: its keys in insertion order and their values. */
  datatype Record = Record(keys: seq<Key>, fields: map<Key, FieldValue>)

  /** No key listed twice. */
  predicate Unique(ks: seq<Key>) {
    forall i, j :: 0 <= i < j < |ks| ==> ks[i] != ks[j]
  }

  /** Every key listed once, and exactly the keys that have a value. */
  predicate WellFormed(r: Record) {
    Unique(r.keys) && (forall k :: k in r.fields <==> k in r.keys)
  }

  /** `r[k] = v`: a new key goes to the end of the insertion order, an
      existing one keeps its place. */
  function Set(r: Record, k: Key, v: FieldValue): Record {
    if k in r.fields then Record(r.keys, r.fields[k := v]) else Record(r.keys + [k], r.fields[k := v])
  }

  /** The keys of the object literal, in the order it lists them. */
  const BaseKeys: seq<Key> := [
    SenderAddress, Signature, Message, TransactionHash, ChainId,
    TokenTicker, TokenName, TokenAmount, TokenDecimals]

  /** The keys copied only when defined, in the order they are copied. */
  const OptionalKeys: seq<Key> := [ReceiptUrl, TokenCurrency, TokenContractAddress, ChainName, IsTestnet]

  /** The value the record gives a key: the sender address read from the
      signed message, the signature, the message's JSON text, and for every
      other key the payload's field of the same name (possibly `undefined`
      for a base key). */
  function Value(td: map<string, JsValue>, sender: JsValue, msg: JsValue, k: Key): FieldValue {
    match k
    case SenderAddress => Plain(sender)
    case Signature => Plain(Lookup(td, SignatureField))
    case Message => Serialized(msg)
    case _ => Plain(Lookup(td, Name(k)))
  }

  function ValuesOf(td: map<string, JsValue>, sender: JsValue, msg: JsValue): Key -> FieldValue {
    k => Value(td, sender, msg, k)
  }

  /** The record holding exactly `keys`, in that order, with values `val`. */
  function RecordOf(keys: seq<Key>, val: Key -> FieldValue): Record {
    Record(keys, map k | k in keys :: val(k))
  }

  /** `typeof td[name] !== 'undefined'`. */
  predicate IsDefined(td: map<string, JsValue>, k: Key) {
    Lookup(td, Name(k)) != Undefined
  }

  function DefinedIn(td: map<string, JsValue>): Key -> bool {
    k => IsDefined(td, k)
  }

  /** The keys of `ks` that `keep` selects, in order. */
  function Kept(ks: seq<Key>, keep: Key -> bool): seq<Key> {
    if ks == [] then []
    else Kept(ks[..|ks| - 1], keep) + (if keep(ks[|ks| - 1]) then [ks[|ks| - 1]] else [])
  }

  /** The signed message the payload carries. */
  function SignedMessage(td: map<string, JsValue>): JsValue {
    Lookup(td, MessageField)
  }

  /** `message.senderAddress`. */
  function SenderOf(msg: JsValue): JsValue
    requires !Nullish(msg)
  {
    Prop(msg, "senderAddress")
  }

  /** The keys of the record, in the order the script adds them. */
  function KeyOrder(td: map<string, JsValue>): seq<Key> {
    BaseKeys + Kept(OptionalKeys, DefinedIn(td))
  }

  /** The record the script submits for payload `td`, or the TypeError that
      reading `senderAddress` of a missing signed message throws. */
  function ProofOf(td: map<string, JsValue>): Completion<Record> {
    if Nullish(SignedMessage(td)) then Throw(TypeError)
    else Normal(RecordOf(KeyOrder(td), ValuesOf(td, SenderOf(SignedMessage(td)), SignedMessage(td))))
  }

  /** The serialiser as the script runs it: read the sender address (which
      throws when the signed message is missing), then build the record. */
  method Serialize(td: map<string, JsValue>) returns (r: Completion<Record>)
    ensures r == ProofOf(td)
  {
    var msg := SignedMessage(td);
    var sender := Get(msg, "senderAddress");
    if sender.Throw? {
      return Throw(sender.error);
    }
    var usp := BuildRecord(td, sender.value, msg);
    r := Normal(usp);
  }

  /** The object literal with the nine base keys, then one conditional copy
      per optional key, in the script's order. */
  method BuildRecord(td: map<string, JsValue>, sender: JsValue, msg: JsValue) returns (usp: Record)
    ensures usp == RecordOf(KeyOrder(td), ValuesOf(td, sender, msg))
  {
    usp := RecordOf(BaseKeys, ValuesOf(td, sender, msg));
    EmptyPrefix(DefinedIn(td));
    OptionalKeyPositions();
    usp := CopyIfDefined(usp, td, ReceiptUrl, sender, msg, 0);
    usp := CopyIfDefined(usp, td, TokenCurrency, sender, msg, 1);
    usp := CopyIfDefined(usp, td, TokenContractAddress, sender, msg, 2);
    usp := CopyIfDefined(usp, td, ChainName, sender, msg, 3);
    usp := CopyIfDefined(usp, td, IsTestnet, sender, msg, 4);
    FullPrefix(td);
  }

  lemma EmptyPrefix(keep: Key -> bool)
    ensures BaseKeys + Kept(OptionalKeys[..0], keep) == BaseKeys
  {
    assert OptionalKeys[..0] == [];
  }

  lemma OptionalKeyPositions()
    ensures |OptionalKeys| == 5
    ensures OptionalKeys[0] == ReceiptUrl && OptionalKeys[1] == TokenCurrency
    ensures OptionalKeys[2] == TokenContractAddress && OptionalKeys[3] == ChainName
    ensures OptionalKeys[4] == IsTestnet
  {
  }

  lemma FullPrefix(td: map<string, JsValue>)
    ensures KeyOrder(td) == BaseKeys + Kept(OptionalKeys[..4 + 1], DefinedIn(td))
  {
    assert OptionalKeys[..4 + 1] == OptionalKeys;
  }

  /** Copies the `i`-th optional key from the payload when the payload
      defines it (its `typeof` is not `'undefined'`): the record for the first `i` optional keys becomes the
      one for the first `i + 1`. */
  method CopyIfDefined(usp: Record, td: map<string, JsValue>, k: Key, ghost sender: JsValue, ghost msg: JsValue,
                       ghost i: nat)
    returns (usp': Record)
    requires i < |OptionalKeys| && k == OptionalKeys[i]
    requires usp == RecordOf(BaseKeys + Kept(OptionalKeys[..i], DefinedIn(td)), ValuesOf(td, sender, msg))
    ensures usp' == RecordOf(BaseKeys + Kept(OptionalKeys[..i + 1], DefinedIn(td)), ValuesOf(td, sender, msg))
  {
    usp' := usp;
    if IsDefined(td, k) {
      usp' := Set(usp, k, Plain(Lookup(td, Name(k))));
    }
    OptionalValue(td, sender, msg, k);
    CopyStep(DefinedIn(td), ValuesOf(td, sender, msg), i);
  }

  /** An optional key takes the payload's field of the same name. */
  lemma OptionalValue(td: map<string, JsValue>, sender: JsValue, msg: JsValue, k: Key)
    requires k in OptionalKeys
    ensures Value(td, sender, msg, k) == Plain(Lookup(td, Name(k)))
  {
  }

  /** One conditional copy: the record holding the base keys and the kept
      keys among the first `i` optional ones becomes the one for the first
      `i + 1`. */
  lemma CopyStep(keep: Key -> bool, val: Key -> FieldValue, i: nat)
    requires i < |OptionalKeys|
    ensures var k, o := OptionalKeys[i], OptionalKeys;
      RecordOf(BaseKeys + Kept(o[..i + 1], keep), val)
        == if keep(k) then Set(RecordOf(BaseKeys + Kept(o[..i], keep), val), k, val(k))
           else RecordOf(BaseKeys + Kept(o[..i], keep), val)
  {
    var o, k := OptionalKeys, OptionalKeys[i];
    var before := BaseKeys + Kept(o[..i], keep);
    assert o[..i + 1][..i] == o[..i];
    if keep(k) {
      KeptMembers(o[..i], keep);
      assert k !in o[..i];
      assert k !in before;
      assert BaseKeys + Kept(o[..i + 1], keep) == before + [k];
      RecordOfSnoc(before, k, val);
    } else {
      assert BaseKeys + Kept(o[..i + 1], keep) == before;
    }
  }

  /** Adding a key the record lacks is `Set` with that key's value. */
  lemma RecordOfSnoc(keys: seq<Key>, k: Key, val: Key -> FieldValue)
    requires k !in keys
    ensures RecordOf(keys + [k], val) == Set(RecordOf(keys, val), k, val(k))
  {
    var m := map x | x in keys :: val(x);
    assert (map x | x in keys + [k] :: val(x)) == m[k := val(k)];
  }

  lemma {:induction false} KeptMembers(ks: seq<Key>, keep: Key -> bool)
    ensures forall k :: k in Kept(ks, keep) <==> k in ks && keep(k)
  {
    if ks != [] {
      var init, last := ks[..|ks| - 1], ks[|ks| - 1];
      KeptMembers(init, keep);
      assert ks == init + [last];
    }
  }

  /** `Kept` lists no key twice when `ks` lists none twice. */
  lemma {:induction false} KeptDistinct(ks: seq<Key>, keep: Key -> bool)
    requires Unique(ks)
    ensures Unique(Kept(ks, keep))
  {
    if ks != [] {
      var init, last := ks[..|ks| - 1], ks[|ks| - 1];
      assert Unique(init) by {
        forall i, j | 0 <= i < j < |init| ensures init[i] != init[j] {
          assert init[i] == ks[i] && init[j] == ks[j];
        }
      }
      KeptDistinct(init, keep);
      KeptMembers(init, keep);
      assert last !in init by {
        forall i | 0 <= i < |init| ensures init[i] != last {
          assert init[i] == ks[i];
        }
      }
      var d := Kept(init, keep);
      if keep(last) {
        var e := d + [last];
        assert Kept(ks, keep) == e;
        forall i, j | 0 <= i < j < |e| ensures e[i] != e[j] {
          if j == |d| {
            assert e[i] == d[i] && d[i] in d;
          } else {
            assert e[i] == d[i] && e[j] == d[j];
          }
        }
      } else {
        assert Kept(ks, keep) == d;
      }
    }
  }

  lemma KeyListsDistinct()
    ensures Unique(BaseKeys) && Unique(OptionalKeys)
    ensures forall k :: k in OptionalKeys ==> k !in BaseKeys
  {
  }

  /** Serialising fails exactly when the signed message is missing (undefined
      or null), and then with a TypeError. */
  lemma ProofFailsIffNoMessage(td: map<string, JsValue>)
    ensures ProofOf(td).Throw? <==> Nullish(Lookup(td, MessageField))
    ensures ProofOf(td).Throw? ==> ProofOf(td).error == TypeError
  {
  }

  /** A successful record lists the nine base keys first, in the literal's
      order, then the optional keys the payload defines, in copy order; every
      key once, and exactly the keys that have a value. */
  lemma ProofKeys(td: map<string, JsValue>)
    requires ProofOf(td).Normal?
    ensures var r := ProofOf(td).value;
      && |r.keys| >= 9 && r.keys[..9] == BaseKeys
      && r.keys[9..] == Kept(OptionalKeys, DefinedIn(td))
      && WellFormed(r)
  {
    var r := ProofOf(td).value;
    var d := Kept(OptionalKeys, DefinedIn(td));
    KeyListsDistinct();
    KeptMembers(OptionalKeys, DefinedIn(td));
    KeptDistinct(OptionalKeys, DefinedIn(td));
    assert r.keys == BaseKeys + d;
    assert (BaseKeys + d)[..9] == BaseKeys;
    assert (BaseKeys + d)[9..] == d;
    forall i, j | 0 <= i < j < |r.keys| ensures r.keys[i] != r.keys[j] {
      if 9 <= i {
        assert r.keys[i] == d[i - 9] && r.keys[j] == d[j - 9];
      } else if 9 <= j {
        assert r.keys[i] == BaseKeys[i] && r.keys[j] == d[j - 9];
        assert d[j - 9] in d;
      } else {
        assert r.keys[i] == BaseKeys[i] && r.keys[j] == BaseKeys[j];
      }
    }
  }

  /** The base values: the sender address comes from the signed message, the
      signature from its own field, the message is its JSON text, and the
      other six are the payload's fields of the same name (`undefined` when
      the payload lacks them). */
  lemma ProofBaseValues(td: map<string, JsValue>)
    requires ProofOf(td).Normal?
    ensures var msg, f := Lookup(td, MessageField), ProofOf(td).value.fields;
      && !Nullish(msg)
      && (forall k :: k in BaseKeys ==> k in f)
      && f[SenderAddress] == Plain(Prop(msg, "senderAddress"))
      && f[Signature] == Plain(Lookup(td, SignatureField))
      && f[Message] == Serialized(msg)
      && f[TransactionHash] == Plain(Lookup(td, "transactionHash"))
      && f[ChainId] == Plain(Lookup(td, "chainId"))
      && f[TokenTicker] == Plain(Lookup(td, "tokenTicker"))
      && f[TokenName] == Plain(Lookup(td, "tokenName"))
      && f[TokenAmount] == Plain(Lookup(td, "tokenAmount"))
      && f[TokenDecimals] == Plain(Lookup(td, "tokenDecimals"))
  {
    var msg := SignedMessage(td);
    var sender := SenderOf(msg);
    var val := ValuesOf(td, sender, msg);
    var keys := KeyOrder(td);
    assert ProofOf(td).value == RecordOf(keys, val);
    assert forall k :: k in BaseKeys ==> k in keys;
    BaseValues(td, sender, msg);
  }

  lemma BaseValues(td: map<string, JsValue>, sender: JsValue, msg: JsValue)
    ensures var val := ValuesOf(td, sender, msg);
      && val(SenderAddress) == Plain(sender)
      && val(Signature) == Plain(Lookup(td, SignatureField))
      && val(Message) == Serialized(msg)
      && val(TransactionHash) == Plain(Lookup(td, "transactionHash"))
      && val(ChainId) == Plain(Lookup(td, "chainId"))
      && val(TokenTicker) == Plain(Lookup(td, "tokenTicker"))
      && val(TokenName) == Plain(Lookup(td, "tokenName"))
      && val(TokenAmount) == Plain(Lookup(td, "tokenAmount"))
      && val(TokenDecimals) == Plain(Lookup(td, "tokenDecimals"))
  {
  }

  /** In a record built from the base keys and the kept optional keys, an
      optional key is present exactly when it is kept, with its value. */
  lemma OptionalField(keep: Key -> bool, val: Key -> FieldValue, k: Key)
    requires k in OptionalKeys
    ensures var r := RecordOf(BaseKeys + Kept(OptionalKeys, keep), val);
      && (k in r.fields <==> keep(k))
      && (k in r.fields ==> r.fields[k] == val(k))
  {
    KeptMembers(OptionalKeys, keep);
    KeyListsDistinct();
  }

  /** Each optional key is present exactly when the payload defines it, and
      then carries the payload's value unchanged. */
  lemma ProofOptionalValues(td: map<string, JsValue>, k: Key)
    requires ProofOf(td).Normal? && k in OptionalKeys
    ensures var f := ProofOf(td).value.fields;
      && (k in f <==> Lookup(td, Name(k)) != Undefined)
      && (k in f ==> f[k] == Plain(td[Name(k)]))
  {
    var msg := SignedMessage(td);
    var sender := SenderOf(msg);
    assert ProofOf(td).value == RecordOf(KeyOrder(td), ValuesOf(td, sender, msg));
    OptionalField(DefinedIn(td), ValuesOf(td, sender, msg), k);
    OptionalValue(td, sender, msg, k);
  }
}
