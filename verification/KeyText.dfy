/** The exact text behind an idempotency key. */
module KeyText {
  import opened CanonicalJson
  import opened Idempotency

  /** Text that needs no escape. */
  predicate PlainText(s: string) {
    forall i :: 0 <= i < |s| ==> ' ' <= s[i] <= '~' && s[i] != '\"' && s[i] != '\\'
  }

  lemma PlainChar(c: char, rest: string)
    requires ' ' <= c <= '~' && c != '\"' && c != '\\'
    ensures EscapeChar(c, rest) == [c] + rest
  {
  }

  lemma HeadFirst(s: string, rest: string)
    requires s != []
    ensures [s[0]] + (s[1..] + rest) == s + rest
  {
  }

  /** Plain text prints as itself. */
  lemma {:induction false} PlainPrints(s: string, rest: string, printed: string)
    requires PlainText(s) && printed == PrintChars(s, rest)
    ensures printed == s + (['\"'] + rest)
  {
    if s == [] {
      assert s + (['\"'] + rest) == ['\"'] + rest;
    } else {
      var tail := PrintChars(s[1..], rest);
      PlainPrints(s[1..], rest, tail);
      PlainChar(s[0], tail);
      HeadFirst(s, ['\"'] + rest);
    }
  }

  lemma InsertFirst(f: Field, fields: seq<Field>)
    requires fields == [] || !Below(fields[0].key, f.key)
    ensures Insert(f, fields) == [f] + fields
  {
  }

  lemma InsertLater(f: Field, first: Field, rest: seq<Field>)
    requires Below(first.key, f.key)
    ensures Insert(f, [first] + rest) == [first] + Insert(f, rest)
  {
    assert ([first] + rest)[1..] == rest;
  }

  lemma SortedCons(f: Field, fields: seq<Field>)
    ensures SortedFields([f] + fields) == Insert(Field(f.key, Sorted(f.value)), SortedFields(fields))
  {
    assert ([f] + fields)[1..] == fields;
  }

  lemma KeyOrder()
    ensures Below("action_type", "thread_id") && Below("params", "thread_id") && Below("target", "thread_id")
    ensures Below("params", "target") && !Below("target", "action_type") && !Below("params", "action_type")
  {
    assert "target"[1..][0] == 'a' && "thread_id"[1..][0] == 'h';
    assert Below("target"[1..], "thread_id"[1..]);
  }

  /** The keys of a payload, in order. */
  lemma PayloadOrder(t: string, a: string, g: string, p: Json)
    ensures Sorted(Payload(t, a, g, p)) ==
      JObj([Field("action_type", JStr(a)), Field("params", Sorted(p)), Field("target", JStr(g)),
            Field("thread_id", JStr(t))])
  {
    var f0, f1 := Field("thread_id", JStr(t)), Field("action_type", JStr(a));
    var f2, f3, f3' := Field("target", JStr(g)), Field("params", p), Field("params", Sorted(p));
    KeyOrder();
    assert Sorted(f0.value) == f0.value && Sorted(f1.value) == f1.value && Sorted(f2.value) == f2.value;
    SortedCons(f3, []);
    InsertFirst(f3', []);
    SortedCons(f2, [f3]);
    InsertLater(f2, f3', []);
    InsertFirst(f2, []);
    SortedCons(f1, [f2] + [f3]);
    InsertFirst(f1, [f3', f2]);
    SortedCons(f0, [f1] + ([f2] + [f3]));
    InsertLater(f0, f1, [f3', f2]);
    InsertLater(f0, f3', [f2]);
    InsertLater(f0, f2, []);
    InsertFirst(f0, []);
    assert [f3] + [] == [f3] && [f3'] + [] == [f3'] && [f2] + [] == [f2] && [f0] + [] == [f0];
    assert [f0] + ([f1] + ([f2] + [f3])) == [f0, f1, f2, f3];
    assert [f1] + ([f3', f2]) == [f1, f3', f2] && [f3'] + [f2] == [f3', f2];
    assert [f1] + ([f3'] + ([f2] + [f0])) == [f1, f3', f2, f0];
  }

  /** A plain string literal in front of what follows it. */
  function Quoted(s: string, rest: string): string { ['\"'] + (s + (['\"'] + rest)) }

  lemma QuotedPrints(s: string, rest: string)
    requires PlainText(s)
    ensures Print(JStr(s), rest) == Quoted(s, rest) && ['\"'] + PrintChars(s, rest) == Quoted(s, rest)
  {
    PlainPrints(s, rest, PrintChars(s, rest));
  }

  lemma FieldPrints(f: Field, rest: string)
    requires PlainText(f.key)
    ensures PrintField(f, rest) == Quoted(f.key, [':', ' '] + Print(f.value, rest))
  {
    QuotedPrints(f.key, [':', ' '] + Print(f.value, rest));
  }

  lemma FieldThen(f: Field, fields: seq<Field>, rest: string)
    requires PlainText(f.key)
    ensures var tail := if fields == [] then ['}'] + rest else [',', ' '] + PrintFields(fields, rest);
      PrintFields([f] + fields, rest) == Quoted(f.key, [':', ' '] + Print(f.value, tail))
  {
    assert ([f] + fields)[1..] == fields;
    FieldPrints(f, if fields == [] then ['}'] + rest else [',', ' '] + PrintFields(fields, rest));
  }

  lemma KeysPlain()
    ensures PlainText("action_type") && PlainText("params") && PlainText("target") && PlainText("thread_id")
  {
  }

  /** The payload's exact text: keys in order, `", "` and `": "` between them, the params printed in their place. */
  lemma PayloadPrints(t: string, a: string, g: string, p: Json)
    requires PlainText(t) && PlainText(a) && PlainText(g)
    ensures var end := [',', ' '] + Quoted("thread_id", [':', ' '] + Quoted(t, ['}']));
      var tail := [',', ' '] + Quoted("target", [':', ' '] + Quoted(g, end));
      var middle := [',', ' '] + Quoted("params", [':', ' '] + Print(Sorted(p), tail));
      KeyOf(t, a, g, p) == ['{'] + Quoted("action_type", [':', ' '] + Quoted(a, middle))
  {
    var f0, f1 := Field("action_type", JStr(a)), Field("params", Sorted(p));
    var f2, f3 := Field("target", JStr(g)), Field("thread_id", JStr(t));
    PayloadOrder(t, a, g, p);
    KeysPlain();
    Display4(f0, f1, f2, f3);
    FieldThen(f3, [], []);
    QuotedPrints(t, ['}']);
    assert ['}'] + [] == ['}'];
    var end := [',', ' '] + PrintFields([f3] + [], []);
    FieldThen(f2, [f3] + [], []);
    QuotedPrints(g, end);
    FieldThen(f1, [f2] + ([f3] + []), []);
    var middle := [',', ' '] + PrintFields([f1] + ([f2] + ([f3] + [])), []);
    FieldThen(f0, [f1] + ([f2] + ([f3] + [])), []);
    QuotedPrints(a, middle);
  }
}
