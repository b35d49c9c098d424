/** `errorTypeToString`: the text the lobby hands to its leave callback for an error code.
    Localisation is an uninterpreted lookup passed in as `translate`. */
module ErrorText {
  import opened Wrappers

  /** A table entry: either a localisation key to translate, or a literal passed through. */
  datatype Entry = Key(key: string) | Literal(text: string)

  /** The key whose translation is the fallback for unknown codes. */
  const LostConnKey := "index-lost-connection"

  /** The thirteen error codes and their entries, in the order of the source's table. */
  const Table: seq<(string, Entry)> := [
    ("join_full", Key("index-team-is-full")),
    ("join_not_found", Key("index-failed-joining-team")),
    ("create_failed", Key("index-failed-creating-team")),
    ("join_failed", Key("index-failed-joining-team")),
    ("join_game_failed", Key("index-failed-joining-game")),
    ("lost_conn", Key(LostConnKey)),
    ("find_game_error", Key("index-failed-finding-game")),
    ("find_game_full", Key("index-failed-finding-game")),
    ("find_game_invalid_protocol", Key("index-invalid-protocol")),
    ("find_game_invalid_captcha", Key("index-invalid-captcha")),
    ("kicked", Key("index-team-kicked")),
    ("banned", Key("index-ip-banned")),
    ("behind_proxy", Literal("behind_proxy"))
  ]

  function Resolve(e: Entry, translate: string -> string): string {
    match e
    case Key(k) => translate(k)
    case Literal(t) => t
  }

  ghost predicate DistinctCodes(table: seq<(string, Entry)>) {
    forall i, j :: 0 <= i < j < |table| ==> table[i].0 != table[j].0
  }

  /** The entry of the first row of `table` whose code is `code`. */
  function Lookup(table: seq<(string, Entry)>, code: string): (r: Option<Entry>)
    ensures r.None? <==> forall i :: 0 <= i < |table| ==> table[i].0 != code
    ensures r.Some? ==> exists i :: 0 <= i < |table| && table[i] == (code, r.value)
  {
    if table == [] then None
    else if table[0].0 == code then Some(table[0].1)
    else
      var r := Lookup(table[1..], code);
      assert r.Some? ==> exists i :: 1 <= i < |table| && table[i] == (code, r.value) by {
        if r.Some? {
          var k :| 0 <= k < |table[1..]| && table[1..][k] == (code, r.value);
          assert table[k + 1] == (code, r.value);
        }
      }
      r
  }

  /** The localised text for `code`. JavaScript's `||` makes an empty translation fall back
      to the lost-connection text as well as an unknown code does. */
  function ErrorTypeToString(code: string, translate: string -> string): (text: string)
    ensures Lookup(Table, code).None? ==> text == translate(LostConnKey)
    ensures text != "" || translate(LostConnKey) == ""
  {
    match Lookup(Table, code)
    case Some(e) => if Resolve(e, translate) != "" then Resolve(e, translate) else translate(LostConnKey)
    case None => translate(LostConnKey)
  }

  lemma TableCodesDistinct()
    ensures |Table| == 13 && DistinctCodes(Table)
  {
  }

  /** In a table without repeated codes, looking up a row's code finds that row's entry. */
  lemma LookupFindsRow(table: seq<(string, Entry)>, i: nat)
    requires DistinctCodes(table)
    requires i < |table|
    ensures Lookup(table, table[i].0) == Some(table[i].1)
  {
  }

  /** Each of the thirteen codes maps to its own table entry (or to the lost-connection
      text when that entry translates to the empty string). */
  lemma KnownCodeText(i: nat, translate: string -> string)
    requires i < |Table|
    ensures var t := Resolve(Table[i].1, translate);
      ErrorTypeToString(Table[i].0, translate) == if t != "" then t else translate(LostConnKey)
  {
    TableCodesDistinct();
    LookupFindsRow(Table, i);
  }

  /** A code outside the table falls back to the lost-connection text. */
  lemma UnknownCodeText(code: string, translate: string -> string)
    requires forall i :: 0 <= i < |Table| ==> Table[i].0 != code
    ensures ErrorTypeToString(code, translate) == translate(LostConnKey)
  {
  }

  /** `behind_proxy` is passed through untranslated, for the main app to show its modal. */
  lemma BehindProxyIsLiteral(translate: string -> string)
    ensures ErrorTypeToString("behind_proxy", translate) == "behind_proxy"
  {
    KnownCodeText(12, translate);
  }

  /** `kicked` shows the team-kicked text whenever that text is not empty. */
  lemma KickedText(translate: string -> string)
    requires translate("index-team-kicked") != ""
    ensures ErrorTypeToString("kicked", translate) == translate("index-team-kicked")
  {
    KnownCodeText(10, translate);
  }
}
