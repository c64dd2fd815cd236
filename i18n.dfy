/** frontend/app/i18n/i18n-context.tsx: the locale state and the dotted-key
    translation lookup `t`. */
module I18n {

  import opened Common
  import PyText

  datatype Locale = En | Ar

  /** A translation table as parsed from a locale's JSON file. */
  datatype Node = Text(s: string) | Table(entries: map<string, Node>)

  /** `value = value?.[k]` for each part in turn: a missing key, or a step
      below a leaf, yields undefined (None) without failing. */
  function Descend(value: Option<Node>, keys: seq<string>): (r: Option<Node>)
    ensures value == None ==> r == None
    decreases |keys|
  {
    if keys == [] then value
    else match value
      case Some(Table(m)) => Descend(if keys[0] in m then Some(m[keys[0]]) else None, keys[1..])
      case _ => Descend(None, keys[1..])
  }

  /** Descending along a concatenated path is descending along each part. */
  lemma {:induction false} DescendAppend(value: Option<Node>, a: seq<string>, b: seq<string>)
    ensures Descend(value, a + b) == Descend(Descend(value, a), b)
    decreases |a|
  {
    if a != [] {
      assert (a + b)[1..] == a[1..] + b;
      match value
      case Some(Table(m)) =>
        DescendAppend(if a[0] in m then Some(m[a[0]]) else None, a[1..], b);
      case _ =>
        DescendAppend(None, a[1..], b);
    } else {
      assert a + b == b;
    }
  }

  /** JavaScript truthiness of the looked-up value: undefined and `''` are falsy,
      every object is truthy. */
  predicate Truthy(v: Option<Node>) {
    v.Some? && (v.value.Table? || v.value.s != [])
  }

  /** `t(key)` over one locale's table: the value found, or the key itself when
      the value is missing or falsy. A key naming a sub-table yields that
      sub-table, as `value || key` does in the source. */
  function Translate(table: Node, key: string): (r: Node)
    ensures Truthy(Descend(Some(table), PyText.Split(key, "."))) ==> r == Descend(Some(table), PyText.Split(key, ".")).value
    ensures !Truthy(Descend(Some(table), PyText.Split(key, "."))) ==> r == Text(key)
    ensures r.Text? ==> r.s != [] || key == []
  {
    var v := Descend(Some(table), PyText.Split(key, "."));
    if Truthy(v) then v.value else Text(key)
  }

  /** A missing part at any depth makes `t` return the key itself. */
  lemma {:induction false} MissingPartGivesKey(table: Node, key: string, i: nat)
    requires i < |PyText.Split(key, ".")|
    requires Descend(Some(table), PyText.Split(key, ".")[..i + 1]) == None
    ensures Translate(table, key) == Text(key)
  {
    var parts := PyText.Split(key, ".");
    assert parts == parts[..i + 1] + parts[i + 1..];
    DescendAppend(Some(table), parts[..i + 1], parts[i + 1..]);
  }

  /** The wrapper's text direction. */
  function Dir(locale: Locale): (r: string)
    ensures r == "rtl" <==> locale == Ar
  {
    if locale == Ar then "rtl" else "ltr"
  }

  /** The provider: the current locale over the two fixed tables. */
  class I18nProvider {
    var locale: Locale
    const en: Node
    const ar: Node

    constructor (en: Node, ar: Node)
      ensures locale == En && this.en == en && this.ar == ar
    {
      this.en := en;
      this.ar := ar;
      locale := En;
    }

    function CurrentTable(): Node
      reads this
    {
      if locale == En then en else ar
    }

    /** `t` for the current locale. */
    function T(key: string): Node
      reads this
    {
      Translate(CurrentTable(), key)
    }

    method SetLocale(l: Locale)
      modifies this`locale
      ensures locale == l
      ensures CurrentTable() == if l == En then en else ar
    {
      locale := l;
    }
  }
}
