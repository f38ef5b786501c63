/**
 * Label-key normalisation and attribute-key collection
 * (src/exporter/utils.rs).
 *
 * Unicode's `char::is_alphanumeric` is not re-implemented: every operation that
 * needs it takes it as the parameter `alnum`. Decimal-digit detection
 * (`char::is_digit(10)`) is the ASCII range '0'..'9'.
 */
module Utils {
  import opened Sdk

  /** The label key under which the exporter's unique identifier is sent. */
  const UniqueIdentifierKey: string := "opentelemetry_id"

  /** The grapheme every illegal grapheme is replaced with. */
  const Underscore: Grapheme := "_"

  /** The prefix a label key that would start with a digit receives. */
  const KeyPrefix: seq<Grapheme> := ["k", "e", "y", "_"]

  /** True when every character of `g` is alphanumeric. */
  predicate AllAlphanumeric(g: Grapheme, alnum: char -> bool) {
    forall i :: 0 <= i < |g| ==> alnum(g[i])
  }

  /** `char::is_digit(10)`. */
  predicate IsDigit(c: char) {
    '0' <= c <= '9'
  }

  /** True when the text of `gs` starts with a decimal digit. */
  predicate StartsWithDigit(gs: seq<Grapheme>) {
    gs != [] && IsDigit(gs[0][0])
  }

  /** The alphanumeric characters of ASCII. */
  predicate AsciiAlphanumeric(c: char) {
    '0' <= c <= '9' || 'a' <= c <= 'z' || 'A' <= c <= 'Z'
  }

  /** `alnum` classifies ASCII as Unicode does: exactly the letters and digits. */
  predicate AgreesOnAscii(alnum: char -> bool) {
    forall c: char :: (c as int) < 128 ==> (alnum(c) <==> AsciiAlphanumeric(c))
  }

  /** A grapheme made safe: kept when all alphanumeric, otherwise an underscore. */
  function SanitizeGrapheme(g: Grapheme, alnum: char -> bool): Grapheme {
    if AllAlphanumeric(g, alnum) then g else Underscore
  }

  /** `sanitize_string`: maps every grapheme that is not wholly alphanumeric to `_`. */
  function SanitizeString(s: seq<Grapheme>, alnum: char -> bool): (r: seq<Grapheme>)
    ensures |r| == |s|
    ensures forall i :: 0 <= i < |s| ==>
      (AllAlphanumeric(s[i], alnum) ==> r[i] == s[i]) && (!AllAlphanumeric(s[i], alnum) ==> r[i] == Underscore)
  {
    if s == [] then [] else [SanitizeGrapheme(s[0], alnum)] + SanitizeString(s[1..], alnum)
  }

  /** `normalize_label_key`: makes an attribute key into a valid label key. */
  function NormalizeLabelKey(s: seq<Grapheme>, alnum: char -> bool): (r: seq<Grapheme>)
    ensures s == [] <==> r == []
    ensures !StartsWithDigit(r)
    ensures |r| == |s| || |r| == |s| + |KeyPrefix|
  {
    if s == [] then s
    else
      var sanitized := SanitizeString(s, alnum);
      if StartsWithDigit(sanitized) then KeyPrefix + sanitized else sanitized
  }

  /** The text of the label key an attribute key becomes. */
  function LabelKey(k: Key, alnum: char -> bool): string {
    Text(NormalizeLabelKey(k, alnum))
  }

  /** Every grapheme is wholly alphanumeric or an underscore. */
  predicate IsLegalLabelKey(gs: seq<Grapheme>, alnum: char -> bool) {
    forall i :: 0 <= i < |gs| ==> AllAlphanumeric(gs[i], alnum) || gs[i] == Underscore
  }

  /**
   * The argument of `get_data_points_attributes_keys`, a `&dyn Any`: one of the
   * SDK's aggregation types, or a value of any other type.
   */
  datatype AnyData = Aggregation(data: AggregatedMetrics) | OtherType

  /** The keys of a list of attribute lists, flattened and collected into a set. */
  function KeysOf(attrs: seq<seq<KeyValue>>): set<Key> {
    if attrs == [] then {}
    else KeysOf(attrs[..|attrs| - 1]) + (set kv | kv in attrs[|attrs| - 1] :: kv.key)
  }

  /** `get_data_points_attributes_keys`: the attribute keys of all data points of one metric. */
  function DataPointsAttributesKeys(data: AnyData): (keys: set<Key>)
    ensures data.OtherType? ==> keys == {}
  {
    match data
    case Aggregation(m) => KeysOf(MetricPointAttributes(m))
    case OtherType => {}
  }

  /** True when some attribute of some list in `attrs` has key `k`. */
  ghost predicate SomeAttributeHasKey(attrs: seq<seq<KeyValue>>, k: Key) {
    exists i, j :: 0 <= i < |attrs| && 0 <= j < |attrs[i]| && attrs[i][j].key == k
  }

  lemma {:induction false} KeysOfIsUnion(attrs: seq<seq<KeyValue>>, k: Key)
    ensures k in KeysOf(attrs) <==> SomeAttributeHasKey(attrs, k)
  {
    if attrs != [] {
      var n := |attrs| - 1;
      var front := attrs[..n];
      KeysOfIsUnion(front, k);
      if k in KeysOf(attrs) {
        if k in KeysOf(front) {
          var i, j :| 0 <= i < |front| && 0 <= j < |front[i]| && front[i][j].key == k;
          assert attrs[i][j].key == k;
        } else {
          var kv :| kv in attrs[n] && kv.key == k;
          var j :| 0 <= j < |attrs[n]| && attrs[n][j] == kv;
          assert attrs[n][j].key == k;
        }
      }
      if SomeAttributeHasKey(attrs, k) {
        var i, j :| 0 <= i < |attrs| && 0 <= j < |attrs[i]| && attrs[i][j].key == k;
        if i < n {
          assert front[i][j].key == k;
        } else {
          assert attrs[n][j] in attrs[n];
        }
      }
    }
  }

  /**
   * The collected key set is exactly the set of keys that some attribute of some
   * data point of the metric carries.
   */
  lemma AttributeKeysAreUnion(m: AggregatedMetrics, k: Key)
    ensures k in DataPointsAttributesKeys(Aggregation(m)) <==> SomeAttributeHasKey(MetricPointAttributes(m), k)
  {
    KeysOfIsUnion(MetricPointAttributes(m), k);
  }

  /** `kv_map_normalize_k_v`: an attribute as a (label key, label value) pair. */
  function NormalizedPair(kv: KeyValue, alnum: char -> bool): (string, string) {
    (LabelKey(kv.key, alnum), kv.value)
  }

  /** Collecting pairs into a map: a later pair overwrites an earlier one with the same key. */
  function CollectMap(pairs: seq<(string, string)>): (m: map<string, string>)
    ensures forall i :: 0 <= i < |pairs| ==> pairs[i].0 in m
  {
    if pairs == [] then map[]
    else
      var n := |pairs| - 1;
      CollectMap(pairs[..n])[pairs[n].0 := pairs[n].1]
  }

  /** Pair `i` is the last one in `pairs` whose key is `k`. */
  predicate IsLastWithKey(pairs: seq<(string, string)>, k: string, i: int) {
    0 <= i < |pairs| && pairs[i].0 == k && forall j :: i < j < |pairs| ==> pairs[j].0 != k
  }

  /** Every key of the collected map comes from a pair, and maps to the value of the last pair with that key. */
  lemma {:induction false} CollectMapFromPairs(pairs: seq<(string, string)>, k: string)
    requires k in CollectMap(pairs)
    ensures exists i :: IsLastWithKey(pairs, k, i) && CollectMap(pairs)[k] == pairs[i].1
  {
    assert pairs != [];
    var n := |pairs| - 1;
    var front := pairs[..n];
    if k == pairs[n].0 {
      assert IsLastWithKey(pairs, k, n);
    } else {
      CollectMapFromPairs(front, k);
      var i :| IsLastWithKey(front, k, i) && CollectMap(front)[k] == front[i].1;
      assert IsLastWithKey(pairs, k, i);
    }
  }

  /** The label pairs of a data point's attributes, in attribute order. */
  function AttributePairs(attrs: seq<KeyValue>, alnum: char -> bool): (pairs: seq<(string, string)>)
    ensures |pairs| == |attrs|
    ensures forall i :: 0 <= i < |attrs| ==> pairs[i] == NormalizedPair(attrs[i], alnum)
  {
    seq(|attrs|, i requires 0 <= i < |attrs| => NormalizedPair(attrs[i], alnum))
  }

  /**
   * The label map built from a data point's attributes: each key normalised,
   * each value stringified; a later attribute overwrites an earlier one with the
   * same label key, as collecting into a HashMap does.
   */
  function AttributeLabels(attrs: seq<KeyValue>, alnum: char -> bool): map<string, string> {
    CollectMap(AttributePairs(attrs, alnum))
  }

  /**
   * The label map has exactly the normalised attribute keys as keys; each maps
   * to the value of the last attribute whose key normalises to it.
   */
  lemma AttributeLabelsExact(attrs: seq<KeyValue>, alnum: char -> bool, k: string)
    ensures k in AttributeLabels(attrs, alnum) <==>
      exists i :: 0 <= i < |attrs| && LabelKey(attrs[i].key, alnum) == k
    ensures k in AttributeLabels(attrs, alnum) ==>
      exists i :: 0 <= i < |attrs| && LabelKey(attrs[i].key, alnum) == k
        && AttributeLabels(attrs, alnum)[k] == attrs[i].value
        && forall j :: i < j < |attrs| ==> LabelKey(attrs[j].key, alnum) != k
  {
    var pairs := AttributePairs(attrs, alnum);
    if k in AttributeLabels(attrs, alnum) {
      CollectMapFromPairs(pairs, k);
      var i :| IsLastWithKey(pairs, k, i) && CollectMap(pairs)[k] == pairs[i].1;
      assert LabelKey(attrs[i].key, alnum) == k;
    }
  }

  /** Sanitising twice is sanitising once. */
  lemma {:induction false} SanitizeIdempotent(s: seq<Grapheme>, alnum: char -> bool)
    ensures SanitizeString(SanitizeString(s, alnum), alnum) == SanitizeString(s, alnum)
  {
    if s != [] {
      SanitizeIdempotent(s[1..], alnum);
      var t := SanitizeString(s, alnum);
      assert t[1..] == SanitizeString(s[1..], alnum);
    }
  }

  /** A sanitised string keeps every legal key unchanged. */
  lemma {:induction false} SanitizeKeepsLegal(s: seq<Grapheme>, alnum: char -> bool)
    requires IsLegalLabelKey(s, alnum)
    ensures SanitizeString(s, alnum) == s
  {
    if s != [] {
      assert IsLegalLabelKey(s[1..], alnum) by {
        forall i | 0 <= i < |s| - 1 ensures AllAlphanumeric(s[1..][i], alnum) || s[1..][i] == Underscore {
          assert s[1..][i] == s[i + 1];
        }
      }
      SanitizeKeepsLegal(s[1..], alnum);
    }
  }

  /** The sanitised string starts with a digit exactly when the key's first grapheme is kept and starts with one. */
  lemma SanitizedStartsWithDigit(s: seq<Grapheme>, alnum: char -> bool)
    ensures StartsWithDigit(SanitizeString(s, alnum)) <==>
      (s != [] && AllAlphanumeric(s[0], alnum) && IsDigit(s[0][0]))
  {
  }

  /**
   * The digit rule, in terms of the input key: the result is `key_` followed by
   * the sanitised key exactly when the key's first grapheme is alphanumeric and
   * starts with a decimal digit; otherwise it is the sanitised key itself.
   */
  lemma NormalizeDigitRule(s: seq<Grapheme>, alnum: char -> bool)
    ensures var r := NormalizeLabelKey(s, alnum);
      var prefixed := s != [] && AllAlphanumeric(s[0], alnum) && IsDigit(s[0][0]);
      (prefixed ==> r == KeyPrefix + SanitizeString(s, alnum))
      && (!prefixed ==> r == SanitizeString(s, alnum))
  {
    SanitizedStartsWithDigit(s, alnum);
  }

  /** After one pass every grapheme is wholly alphanumeric or `_`. */
  lemma NormalizeIsLegal(s: seq<Grapheme>, alnum: char -> bool)
    requires AgreesOnAscii(alnum)
    ensures IsLegalLabelKey(NormalizeLabelKey(s, alnum), alnum)
  {
    var t := SanitizeString(s, alnum);
    assert IsLegalLabelKey(t, alnum);
    assert alnum('k') && alnum('e') && alnum('y');
    if s != [] && StartsWithDigit(t) {
      var r := KeyPrefix + t;
      forall i | 0 <= i < |r| ensures AllAlphanumeric(r[i], alnum) || r[i] == Underscore {
        if i >= 4 { assert r[i] == t[i - 4]; }
      }
    }
  }

  /** `normalize_label_key` is idempotent. */
  lemma NormalizeIdempotent(s: seq<Grapheme>, alnum: char -> bool)
    requires AgreesOnAscii(alnum)
    ensures NormalizeLabelKey(NormalizeLabelKey(s, alnum), alnum) == NormalizeLabelKey(s, alnum)
  {
    var r := NormalizeLabelKey(s, alnum);
    if r != [] {
      NormalizeIsLegal(s, alnum);
      SanitizeKeepsLegal(r, alnum);
    }
  }

  /** Sanitising, character by character, for a string of one-character graphemes. */
  function SanitizeChars(s: string, alnum: char -> bool): string {
    seq(|s|, i requires 0 <= i < |s| => if alnum(s[i]) then s[i] else '_')
  }

  lemma {:induction false} TextAppend(a: seq<Grapheme>, b: seq<Grapheme>)
    ensures Text(a + b) == Text(a) + Text(b)
  {
    if a == [] {
      assert a + b == b;
    } else {
      assert (a + b)[0] == a[0];
      assert (a + b)[1..] == a[1..] + b;
      TextAppend(a[1..], b);
    }
  }

  /** The text of one-character graphemes is their characters in order. */
  lemma {:induction false} TextOfSingletons(gs: seq<Grapheme>)
    requires forall i :: 0 <= i < |gs| ==> |gs[i]| == 1
    ensures Text(gs) == seq(|gs|, i requires 0 <= i < |gs| => gs[i][0])
  {
    if gs != [] {
      var rest := gs[1..];
      TextOfSingletons(rest);
      var heads := seq(|gs|, i requires 0 <= i < |gs| => gs[i][0]);
      assert heads == [gs[0][0]] + seq(|rest|, i requires 0 <= i < |rest| => rest[i][0]);
      assert gs[0] == [gs[0][0]];
    }
  }

  lemma SanitizeSingletons(s: string, alnum: char -> bool)
    ensures Text(SanitizeString(Graphemes(s), alnum)) == SanitizeChars(s, alnum)
  {
    var gs := Graphemes(s);
    var t := SanitizeString(gs, alnum);
    forall i | 0 <= i < |s| ensures |t[i]| == 1 && t[i][0] == if alnum(s[i]) then s[i] else '_' {
      assert AllAlphanumeric(gs[i], alnum) <==> alnum(s[i]) by {
        assert gs[i][0] == s[i] && |gs[i]| == 1;
      }
    }
    TextOfSingletons(t);
  }

  /** The label key of a string of one-character graphemes, character by character. */
  lemma LabelKeyOfChars(s: string, alnum: char -> bool)
    ensures LabelKey(Graphemes(s), alnum) ==
      if s != [] && alnum(s[0]) && IsDigit(s[0]) then "key_" + SanitizeChars(s, alnum)
      else SanitizeChars(s, alnum)
  {
    var gs := Graphemes(s);
    SanitizeSingletons(s, alnum);
    if s != [] {
      assert AllAlphanumeric(gs[0], alnum) <==> alnum(s[0]);
      SanitizedStartsWithDigit(gs, alnum);
      TextAppend(KeyPrefix, SanitizeString(gs, alnum));
      assert Text(KeyPrefix) == "key_";
    }
  }

  /*
   * The test vectors of `test_normalize_label_key`, for keys whose graphemes are
   * single characters, under any classification that agrees with Unicode on
   * the characters involved.
   */

  lemma NormalizeExampleValidKey(alnum: char -> bool)
    requires AgreesOnAscii(alnum)
    ensures LabelKey(Graphemes("valid_key_1"), alnum) == "valid_key_1"
  {
    assert SanitizeChars("valid_key_1", alnum) == "valid_key_1";
    LabelKeyOfChars("valid_key_1", alnum);
  }

  lemma NormalizeExampleNonAscii(alnum: char -> bool)
    requires AgreesOnAscii(alnum) && alnum('ø')
    ensures LabelKey(Graphemes("hellø"), alnum) == "hellø"
  {
    assert SanitizeChars("hellø", alnum) == "hellø";
    LabelKeyOfChars("hellø", alnum);
  }

  lemma NormalizeExampleLeadingDigit(alnum: char -> bool)
    requires AgreesOnAscii(alnum)
    ensures LabelKey(Graphemes("123"), alnum) == "key_123"
  {
    assert SanitizeChars("123", alnum) == "123";
    LabelKeyOfChars("123", alnum);
  }

  lemma NormalizeExampleBang(alnum: char -> bool)
    requires AgreesOnAscii(alnum)
    ensures LabelKey(Graphemes("key!321"), alnum) == "key_321"
  {
    assert SanitizeChars("key!321", alnum) == "key_321";
    LabelKeyOfChars("key!321", alnum);
  }

  lemma NormalizeExamplePunctuation(alnum: char -> bool)
    requires AgreesOnAscii(alnum)
    ensures LabelKey(Graphemes("hyphens-dots.slashes/"), alnum) == "hyphens_dots_slashes_"
  {
    var s := "hyphens-dots.slashes/";
    assert SanitizeChars(s, alnum) == "hyphens_dots_slashes_";
    LabelKeyOfChars(s, alnum);
  }

  lemma NormalizeExampleSymbols(alnum: char -> bool)
    requires AgreesOnAscii(alnum)
    requires !alnum('£') && !alnum('¢') && !alnum('∞')
    ensures LabelKey(Graphemes("non_letters_:£¢$∞"), alnum) == "non_letters______"
  {
    var s := "non_letters_:£¢$∞";
    assert SanitizeChars(s, alnum) == "non_letters______";
    LabelKeyOfChars(s, alnum);
  }
}
