/** Canonical observation codes from raw labels (core/normalize/names.py). */
module Names {
  import opened Text

  /** `ALIAS_MAP`: lower-cased label to canonical code. */
  const AliasMap: map<string, string> := map[
    "hemoglobin" := "hemoglobin",
    "hgb" := "hemoglobin",
    "glucose" := "glucose"
  ]

  /** The lookup key: the label stripped and lower-cased. */
  function NameKey(name: string): string {
    Lower(Strip(name))
  }

  /** Every alias target is already a code: lower-case, without spaces or underscores
      to rewrite, and without whitespace at its ends. */
  lemma AliasTargetsAreCodes()
    ensures forall k :: k in AliasMap ==>
      var v := AliasMap[k]; v != [] && NoUpper(v) && ' ' !in v && Trimmed(v) && v in AliasMap && AliasMap[v] == v
  {}

  lemma RewrittenKeyIsCode(key: string)
    requires key != [] && NoUpper(key) && Trimmed(key)
    ensures var r := ReplaceChar(key, ' ', '_'); r != [] && NoUpper(r) && ' ' !in r && Trimmed(r)
  {}

  /** `canonicalize_name`: "" for a blank label; otherwise the alias of the key, or the key
      with every space replaced by `_`. The code never has an upper-case letter or a space,
      has no whitespace at its ends, and is empty exactly when the label is blank. */
  function CanonicalizeName(name: string): (code: string)
    ensures code == [] <==> AllSpace(name)
    ensures NoUpper(code) && ' ' !in code
    ensures Trimmed(code)
  {
    StripEmptyIffAllSpace(name);
    LowerHasNoUpper(Strip(name));
    LowerKeepsTrimmed(Strip(name));
    CodeOfKey(NameKey(name));
    CodeOf(NameKey(name))
  }

  /** The code of a lookup key. */
  function CodeOf(key: string): string {
    if key == [] then key
    else if key in AliasMap then AliasMap[key]
    else ReplaceChar(key, ' ', '_')
  }

  /** The code of a lower-case key without whitespace at its ends has no upper-case letter,
      no space and no whitespace at its ends, and is empty only for the empty key. */
  lemma CodeOfKey(key: string)
    requires NoUpper(key) && Trimmed(key)
    ensures var code := CodeOf(key);
      && (code == [] <==> key == [])
      && NoUpper(code) && ' ' !in code && Trimmed(code)
  {
    if key != [] {
      if key in AliasMap {
        AliasTargetsAreCodes();
      } else {
        RewrittenKeyIsCode(key);
      }
    }
  }

  /** Two labels that agree once stripped and lower-cased get the same code, so the code
      ignores case and surrounding whitespace. */
  lemma CaseAndWhitespaceInsensitive(a: string, b: string)
    requires NameKey(a) == NameKey(b)
    ensures CanonicalizeName(a) == CanonicalizeName(b)
  {}

  /** A label that is already trimmed, whose lower-cased form has no space and is not an
      alias, becomes its lower-cased form. */
  lemma PlainLabel(name: string, key: string)
    requires Trimmed(name) && Lower(name) == key && key != []
    requires key !in AliasMap && ' ' !in key
    ensures CanonicalizeName(name) == key
  {
    StripNoop(name);
    assert ReplaceChar(key, ' ', '_') == key;
  }

  /** "WBC" becomes "wbc". */
  lemma UpperWbc()
    ensures CanonicalizeName("WBC") == "wbc"
  {
    assert Lower("WBC") == "wbc";
    PlainLabel("WBC", "wbc");
  }

  /** "wbc" stays "wbc". */
  lemma LowerWbc()
    ensures CanonicalizeName("wbc") == "wbc"
  {
    assert Lower("wbc") == "wbc";
    PlainLabel("wbc", "wbc");
  }

  /** A label padded by one space on each side has the key of the label itself. */
  lemma PaddedKey(inner: string)
    requires inner != [] && Trimmed(inner)
    ensures NameKey(" " + inner + " ") == Lower(inner)
  {
    var s := " " + inner + " ";
    assert s[1..] == inner + " ";
    LStripNoop(inner + " ");
    assert LStrip(s) == inner + " ";
    assert (inner + " ")[..|inner|] == inner;
    RStripNoop(inner);
    assert RStrip(inner + " ") == inner;
  }

  /** Padding a label with a space on each side does not change its code. */
  lemma PaddingIgnored(inner: string)
    requires inner != [] && Trimmed(inner)
    ensures CanonicalizeName(" " + inner + " ") == CanonicalizeName(inner)
  {
    PaddedKey(inner);
    StripNoop(inner);
    CaseAndWhitespaceInsensitive(" " + inner + " ", inner);
  }

  /** "hgb" hits the alias table and becomes "hemoglobin". */
  lemma HgbAlias()
    ensures CanonicalizeName("hgb") == "hemoglobin"
  {
    StripNoop("hgb");
    assert Lower("hgb") == "hgb";
  }

  /** So does "HGB", once lower-cased. */
  lemma UpperHgbAlias()
    ensures CanonicalizeName("HGB") == "hemoglobin"
  {
    StripNoop("HGB");
    assert Lower("HGB") == "hgb";
  }

  /** A whitespace-only label has the empty code. */
  lemma BlankLabel()
    ensures CanonicalizeName(" \t ") == ""
  {
    assert AllSpace(" \t ");
  }

  lemma CodeIsItsOwnKey(code: string)
    requires NoUpper(code) && Trimmed(code)
    ensures NameKey(code) == code
  {
    StripNoop(code);
    LowerNoop(code);
  }

  /** Applying `canonicalize_name` to its own output changes nothing. */
  lemma Idempotent(name: string)
    ensures CanonicalizeName(CanonicalizeName(name)) == CanonicalizeName(name)
  {
    var key := NameKey(name);
    var code := CanonicalizeName(name);
    StripEmptyIffAllSpace(name);
    CodeIsItsOwnKey(code);
    if key == [] {
      assert code == [];
    } else if key in AliasMap {
      AliasTargetsAreCodes();
      assert code == AliasMap[key];
    } else {
      assert code == ReplaceChar(key, ' ', '_');
      RewrittenKeyIsCanonical(key);
      assert CanonicalizeName(code) == ReplaceChar(code, ' ', '_');
    }
  }

  /** A non-alias key rewritten with `_` for spaces is not an alias key either (those
      have no `_`), and has nothing left to rewrite. */
  lemma RewrittenKeyIsCanonical(key: string)
    requires key !in AliasMap
    ensures var r := ReplaceChar(key, ' ', '_'); r !in AliasMap && ReplaceChar(r, ' ', '_') == r
  {
    var r := ReplaceChar(key, ' ', '_');
    assert ReplaceChar(r, ' ', '_') == r;
    if ' ' in key {
      var i :| 0 <= i < |key| && key[i] == ' ';
      assert r[i] == '_';
      assert forall k :: k in AliasMap ==> '_' !in k;
    } else {
      assert forall i :: 0 <= i < |r| ==> r[i] == key[i];
      assert r == key;
    }
  }
}
