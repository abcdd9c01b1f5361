/**
 * The three loops of `execute_ai_tool` that build a reply line by line
 * (ai_tools.py:69-73, ai_tools.py:112-116, ai_tools.py:192-218), written as
 * loops and proved to build the text the dispatcher's functions define.
 */
module AiToolsLoops {
  import opened Common
  import opened PyJson
  import opened AiTools

  /** Appending one item: the listing of `a + [o]` is that of `a` followed by the line of `o`. */
  lemma {:induction false} LinesSnoc(line: Json -> Py<string>, a: seq<Json>, o: Json)
    ensures Lines(line, a + [o]) ==
      if Lines(line, a).Raised? || line(o).Raised? then Raised else Value(Lines(line, a).v + line(o).v)
    decreases |a|
  {
    if a == [] {
      assert a + [o] == [o];
      assert [o][1..] == [];
      if line(o).Value? {
        assert line(o).v + "" == "" + line(o).v;
      }
    } else {
      assert (a + [o])[0] == a[0];
      assert (a + [o])[1..] == a[1..] + [o];
      LinesSnoc(line, a[1..], o);
      if line(a[0]).Value? && Lines(line, a[1..]).Value? && line(o).Value? {
        assert (line(a[0]).v + Lines(line, a[1..]).v) + line(o).v == line(a[0]).v + (Lines(line, a[1..]).v + line(o).v);
      }
    }
  }

  /** A listing whose prefix raises raises: the loop stops at the first unreadable item. */
  lemma {:induction false} LinesRaisedPrefix(line: Json -> Py<string>, a: seq<Json>, b: seq<Json>)
    requires Lines(line, a).Raised?
    ensures Lines(line, a + b).Raised?
    decreases |a|
  {
    if a == [] {
      assert false;
    } else {
      assert (a + b)[0] == a[0];
      assert (a + b)[1..] == a[1..] + b;
      if line(a[0]).Value? {
        LinesRaisedPrefix(line, a[1..], b);
      }
    }
  }

  /** An item whose line raises makes the whole listing raise. */
  lemma LinesStop(line: Json -> Py<string>, items: seq<Json>, i: nat)
    requires i < |items| && line(items[i]).Raised?
    ensures Lines(line, items).Raised?
  {
    LinesSnoc(line, items[..i], items[i]);
    assert items[..i + 1] == items[..i] + [items[i]];
    assert items == items[..i + 1] + items[i + 1..];
    LinesRaisedPrefix(line, items[..i + 1], items[i + 1..]);
  }

  /** One pass of the loop: an item whose line is readable appends that line. */
  lemma LinesStep(line: Json -> Py<string>, items: seq<Json>, i: nat, header: string, text: string)
    requires i < |items| && line(items[i]).Value?
    requires Lines(line, items[..i]).Value? && text == header + Lines(line, items[..i]).v
    ensures Lines(line, items[..i + 1]).Value? && text + line(items[i]).v == header + Lines(line, items[..i + 1]).v
  {
    LinesSnoc(line, items[..i], items[i]);
    assert items[..i + 1] == items[..i] + [items[i]];
    assert (header + Lines(line, items[..i]).v) + line(items[i]).v == header + (Lines(line, items[..i]).v + line(items[i]).v);
  }

  /**
   * The loop of `search_order` and `search_client` (ai_tools.py:69-73,
   * ai_tools.py:112-116): the header, then one line per item, each appended to
   * the text; an item whose fields cannot be read raises.
   */
  method ListingText(header: string, line: Json -> Py<string>, items: seq<Json>) returns (r: Py<string>)
    ensures r.Raised? <==> Lines(line, items).Raised?
    ensures r.Value? ==> r.v == header + Lines(line, items).v
  {
    var text := header;
    var i := 0;
    while i < |items|
      invariant 0 <= i <= |items|
      invariant Lines(line, items[..i]).Value? && text == header + Lines(line, items[..i]).v
    {
      var next := line(items[i]);
      if next.Raised? {
        LinesStop(line, items, i);
        return Raised;
      }
      LinesStep(line, items, i, header, text);
      text := text + next.v;
      i := i + 1;
    }
    assert items[..i] == items;
    r := Value(text);
  }

  /** The `search_order` reply body once the backend has answered with a non-empty list (ai_tools.py:69-73). */
  method SearchOrderText(query: Json, items: seq<Json>) returns (r: Py<string>)
    ensures r.Raised? <==> Lines(OrderLine, items).Raised?
    ensures r.Value? ==> r.v == "🔍 **Поиск заказа '" + Str(query) + "':**\n" + Lines(OrderLine, items).v
  {
    r := ListingText("🔍 **Поиск заказа '" + Str(query) + "':**\n", OrderLine, items);
  }

  /** The `search_client` reply body once the backend has answered with a non-empty list (ai_tools.py:112-116). */
  method SearchClientText(query: Json, items: seq<Json>) returns (r: Py<string>)
    ensures r.Raised? <==> Lines(ClientLine, items).Raised?
    ensures r.Value? ==> r.v == "🔍 **Поиск клиента '" + Str(query) + "':**\n" + Lines(ClientLine, items).v
  {
    r := ListingText("🔍 **Поиск клиента '" + Str(query) + "':**\n", ClientLine, items);
  }

  /** The text of one line per key, each produced by `line`, in order. */
  function Joined(line: ((string, string)) -> string, keys: seq<(string, string)>): string
  {
    if keys == [] then "" else line(keys[0]) + Joined(line, keys[1..])
  }

  /** The settings lines are those the loop joins with the line of each key. */
  lemma {:induction false} SettingLinesJoined(keys: seq<(string, string)>, d: PyDictEntries)
    ensures SettingLines(keys, d) == Joined((k: (string, string)) => SettingLine(k.0, k.1, d), keys)
    decreases |keys|
  {
    if keys != [] {
      SettingLinesJoined(keys[1..], d);
    }
  }

  /** Appending one key: the text for `keys + [k]` is that for `keys` followed by the line of `k`. */
  lemma {:induction false} JoinedSnoc(line: ((string, string)) -> string, keys: seq<(string, string)>, k: (string, string))
    ensures Joined(line, keys + [k]) == Joined(line, keys) + line(k)
    decreases |keys|
  {
    if keys == [] {
      assert keys + [k] == [k];
      assert [k][1..] == [];
    } else {
      assert (keys + [k])[0] == keys[0];
      assert (keys + [k])[1..] == keys[1..] + [k];
      JoinedSnoc(line, keys[1..], k);
      assert (line(keys[0]) + Joined(line, keys[1..])) + line(k) == line(keys[0]) + (Joined(line, keys[1..]) + line(k));
    }
  }

  /** One pass of the loop: the line of the next key goes after the lines already built. */
  lemma JoinedStep(line: ((string, string)) -> string, keys: seq<(string, string)>, i: nat, header: string, text: string)
    requires i < |keys| && text == header + Joined(line, keys[..i])
    ensures text + line(keys[i]) == header + Joined(line, keys[..i + 1])
  {
    JoinedSnoc(line, keys[..i], keys[i]);
    assert keys[..i + 1] == keys[..i] + [keys[i]];
    assert (header + Joined(line, keys[..i])) + line(keys[i]) == header + (Joined(line, keys[..i]) + line(keys[i]));
  }

  const SettingsHeader: string := "⚙️ **Текущие Настройки Системы:**\n"

  /**
   * The `get_settings` loop and the switch line after it (ai_tools.py:192-218):
   * one line per displayed key in the order of the key map, then the AI switch.
   */
  method SettingsTextLoop(d: PyDictEntries) returns (text: string)
    ensures text == SettingsText(d)
  {
    var line := (k: (string, string)) => SettingLine(k.0, k.1, d);
    text := SettingsHeader;
    var i := 0;
    while i < |KeyMap|
      invariant 0 <= i <= |KeyMap|
      invariant text == SettingsHeader + Joined(line, KeyMap[..i])
    {
      JoinedStep(line, KeyMap, i, SettingsHeader, text);
      text := text + line(KeyMap[i]);
      i := i + 1;
    }
    assert KeyMap[..i] == KeyMap;
    SettingLinesJoined(KeyMap, d);
    text := text + "\n🤖 **AI Ассистент (Рубильник)**: " + AiSwitchText(d);
  }
}
