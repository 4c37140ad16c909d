/** The pure parts of internal/handlers/user_types.go: the role-key
    prettifier shown on the user-types page, the list query behind it and
    the delete handler with its substring-based restriction. */
module UserTypes {
  import opened Common
  import StrConv
  import opened Handlers

  // ---------------------------------------------------------------------
  // Reference definitions of the string steps

  /** unicode.ToUpper on ASCII; every other rune is kept. */
  function UpperRune(c: char): char {
    if 'a' <= c <= 'z' then (c as int - 32) as char else c
  }

  /** strings.TrimLeft with the cutset "_". */
  function TrimLeft(s: string): string {
    if |s| > 0 && s[0] == '_' then TrimLeft(s[1..]) else s
  }

  /** strings.TrimRight with the cutset "_". */
  function TrimRight(s: string): string {
    if |s| > 0 && s[|s| - 1] == '_' then TrimRight(s[..|s| - 1]) else s
  }

  /** strings.Trim(s, "_") */
  function Trim(s: string): string {
    TrimRight(TrimLeft(s))
  }

  /** TrimLeft drops the leading underscores and nothing else. */
  lemma {:induction false} TrimLeftStrips(s: string)
    ensures var r := TrimLeft(s);
      && |r| <= |s| && r == s[|s| - |r|..]
      && (r == "" || r[0] != '_')
      && forall i :: 0 <= i < |s| - |r| ==> s[i] == '_'
  {
    if |s| > 0 && s[0] == '_' {
      TrimLeftStrips(s[1..]);
    }
  }

  /** TrimRight drops the trailing underscores and nothing else. */
  lemma {:induction false} TrimRightStrips(s: string)
    ensures var r := TrimRight(s);
      && |r| <= |s| && r == s[..|r|]
      && (r == "" || r[|r| - 1] != '_')
      && forall i :: |r| <= i < |s| ==> s[i] == '_'
  {
    if |s| > 0 && s[|s| - 1] == '_' {
      TrimRightStrips(s[..|s| - 1]);
    }
  }

  /** Trim keeps the middle of the key: everything before and after it is
      underscores, and it neither starts nor ends with one. */
  lemma TrimStrips(s: string)
    ensures var r := Trim(s); var start := |s| - |TrimLeft(s)|;
      && 0 <= start && start + |r| <= |s| && r == s[start..start + |r|]
      && (r == "" || (r[0] != '_' && r[|r| - 1] != '_'))
      && (forall i :: 0 <= i < start ==> s[i] == '_')
      && (forall i :: start + |r| <= i < |s| ==> s[i] == '_')
  {
    var t := TrimLeft(s);
    TrimLeftStrips(s);
    TrimRightStrips(t);
    var r := TrimRight(t);
    var start := |s| - |t|;
    assert t == s[start..];
    assert r == t[..|r|];
    assert r == s[start..start + |r|] by {
      assert s[start..][..|r|] == s[start..start + |r|];
    }
    forall i | start + |r| <= i < |s|
      ensures s[i] == '_'
    {
      assert s[i] == t[i - start];
    }
  }

  /** strings.Split(s, "_"): the pieces between underscores, empty ones
      included, so there is always at least one. */
  function Split(s: string): (parts: seq<string>)
    ensures |parts| >= 1
  {
    if |s| == 0 then [""]
    else if s[0] == '_' then [""] + Split(s[1..])
    else
      var rest := Split(s[1..]);
      [[s[0]] + rest[0]] + rest[1..]
  }

  /** One step of Split: an underscore starts a new piece, any other
      character joins the first piece of the rest. */
  lemma SplitCons(c: char, t: string)
    ensures Split([c] + t) == if c == '_' then [""] + Split(t) else [[c] + Split(t)[0]] + Split(t)[1..]
  {
    assert ([c] + t)[1..] == t;
  }

  /** No piece of Split contains the separator. */
  lemma {:induction false} SplitPiecesHaveNoUnderscore(s: string)
    ensures forall k :: 0 <= k < |Split(s)| ==> '_' !in Split(s)[k]
  {
    if |s| > 0 {
      SplitPiecesHaveNoUnderscore(s[1..]);
      var rest := Split(s[1..]);
      if s[0] != '_' {
        var first := [s[0]] + rest[0];
        assert '_' !in first;
      }
    }
  }

  /** strings.Join */
  function Join(words: seq<string>, sep: string): string {
    if |words| == 0 then ""
    else if |words| == 1 then words[0]
    else words[0] + sep + Join(words[1..], sep)
  }

  /** The first rune upper-cased, the others as they are (user_types.go:32-33). */
  function Capitalize(word: string): string
    requires |word| > 0
  {
    [UpperRune(word[0])] + word[1..]
  }

  /** The loop body of user_types.go:29-36 over a list of pieces: empty
      pieces are skipped, the others capitalised. */
  function CapitalizedWords(words: seq<string>): (r: seq<string>)
    ensures forall k :: 0 <= k < |r| ==> r[k] != ""
  {
    if |words| == 0 then []
    else
      var last := words[|words| - 1];
      CapitalizedWords(words[..|words| - 1]) + (if last == "" then [] else [Capitalize(last)])
  }

  /** The display name UserTypeNameToString computes. */
  function PrettyName(value: string): string {
    Join(CapitalizedWords(Split(Trim(value))), " ")
  }

  /** UserTypeNameToString (user_types.go:21-40). */
  method UserTypeNameToString(value: string) returns (r: string)
    ensures r == PrettyName(value)
  {
    var trimmed := Trim(value);
    var words := Split(trimmed);
    var capitalized: seq<string> := [];
    for i := 0 to |words|
      invariant capitalized == CapitalizedWords(words[..i])
    {
      assert words[..i + 1][..i] == words[..i];
      var word := words[i];
      if |word| > 0 {
        var runes := word;
        runes := runes[0 := UpperRune(runes[0])];
        assert runes == Capitalize(word);
        capitalized := capitalized + [runes];
      }
    }
    assert words[..|words|] == words;
    r := Join(capitalized, " ");
  }

  // ---------------------------------------------------------------------
  // Properties of the prettifier

  /** Split and Join with "_" are inverse: no character is lost. */
  lemma {:induction false} SplitJoinRoundTrip(s: string)
    ensures Join(Split(s), "_") == s
  {
    if |s| > 0 {
      SplitJoinRoundTrip(s[1..]);
      var rest := Split(s[1..]);
      if s[0] != '_' {
        if |rest| > 1 {
          assert Join(rest, "_") == rest[0] + "_" + Join(rest[1..], "_");
          assert ([[s[0]] + rest[0]] + rest[1..])[1..] == rest[1..];
        }
      } else {
        assert ([""] + rest)[1..] == rest;
      }
      assert s == [s[0]] + s[1..];
    }
  }

  /** Splitting at an underscore splits the pieces. */
  lemma {:induction false} SplitAppend(x: string, y: string)
    ensures Split(x + "_" + y) == Split(x) + Split(y)
  {
    if |x| == 0 {
      assert x + "_" + y == ['_'] + y;
      SplitCons('_', y);
      assert Split(x) == [""];
    } else {
      var c, t := x[0], x[1..];
      var u := t + "_" + y;
      assert x + "_" + y == [c] + u;
      assert x == [c] + t;
      SplitAppend(t, y);
      SplitCons(c, t);
      SplitCons(c, u);
      if c != '_' {
        FirstPieceGrows(c, Split(t), Split(y));
      }
    }
  }

  /** Prepending a character to the first of the concatenated pieces. */
  lemma FirstPieceGrows(c: char, a: seq<string>, b: seq<string>)
    requires |a| >= 1
    ensures [[c] + (a + b)[0]] + (a + b)[1..] == ([[c] + a[0]] + a[1..]) + b
  {
    assert (a + b)[1..] == a[1..] + b;
  }

  lemma {:induction false} CapitalizedWordsAppend(a: seq<string>, b: seq<string>)
    ensures CapitalizedWords(a + b) == CapitalizedWords(a) + CapitalizedWords(b)
  {
    if |b| > 0 {
      CapitalizedWordsAppend(a, b[..|b| - 1]);
      assert (a + b)[..|a + b| - 1] == a + b[..|b| - 1];
    } else {
      assert a + b == a;
    }
  }

  /** Trimming only removes pieces that the loop skips anyway. */
  lemma {:induction false} TrimKeepsWords(s: string)
    ensures CapitalizedWords(Split(Trim(s))) == CapitalizedWords(Split(s))
  {
    TrimLeftKeepsWords(s);
    TrimRightKeepsWords(TrimLeft(s));
  }

  lemma {:induction false} TrimLeftKeepsWords(s: string)
    ensures CapitalizedWords(Split(TrimLeft(s))) == CapitalizedWords(Split(s))
  {
    if |s| > 0 && s[0] == '_' {
      TrimLeftKeepsWords(s[1..]);
      CapitalizedWordsAppend([""], Split(s[1..]));
      assert CapitalizedWords([""]) == [];
    }
  }

  lemma {:induction false} TrimRightKeepsWords(s: string)
    ensures CapitalizedWords(Split(TrimRight(s))) == CapitalizedWords(Split(s))
  {
    if |s| > 0 && s[|s| - 1] == '_' {
      var t := s[..|s| - 1];
      TrimRightKeepsWords(t);
      SplitAppend(t, "");
      assert t + "_" + "" == s;
      CapitalizedWordsAppend(Split(t), [""]);
      assert CapitalizedWords([""]) == [];
    }
  }

  /** Splitting at an underscore concatenates the words of both sides. */
  lemma WordsAround(x: string, y: string)
    ensures CapitalizedWords(Split(x + "_" + y)) == CapitalizedWords(Split(x)) + CapitalizedWords(Split(y))
  {
    SplitAppend(x, y);
    CapitalizedWordsAppend(Split(x), Split(y));
  }

  lemma NoWordsInEmpty()
    ensures CapitalizedWords(Split("")) == []
  {
    assert Split("") == [""];
    assert [""][..0] == [];
  }

  /** A leading underscore adds no word. */
  lemma WordsUnderscoreLeft(y: string)
    ensures CapitalizedWords(Split("_" + y)) == CapitalizedWords(Split(y))
  {
    WordsAround("", y);
    assert "" + "_" + y == "_" + y;
    NoWordsInEmpty();
  }

  /** A trailing underscore adds no word. */
  lemma WordsUnderscoreRight(x: string)
    ensures CapitalizedWords(Split(x + "_")) == CapitalizedWords(Split(x))
  {
    WordsAround(x, "");
    assert x + "_" + "" == x + "_";
    NoWordsInEmpty();
  }

  /** A piece without underscores is one word. */
  lemma WordsOfWord(word: string)
    requires word != "" && '_' !in word
    ensures CapitalizedWords(Split(word)) == [Capitalize(word)]
  {
    NoUnderscoreSplit(word);
    assert [word][..0] == [];
  }

  lemma {:induction false} NoUnderscoreSplit(word: string)
    requires '_' !in word
    ensures Split(word) == [word]
  {
    if |word| > 0 {
      NoUnderscoreSplit(word[1..]);
      assert [word[0]] + word[1..] == word;
    }
  }

  /** A run of underscores separates words like a single one does. */
  lemma UnderscoreRunsCollapse(x: string, y: string)
    ensures PrettyName(x + "__" + y) == PrettyName(x + "_" + y)
  {
    TrimKeepsWords(x + "__" + y);
    TrimKeepsWords(x + "_" + y);
    assert x + "__" + y == x + "_" + ("_" + y);
    WordsAround(x, "_" + y);
    WordsUnderscoreLeft(y);
    WordsAround(x, y);
  }

  lemma {:induction false} CapitalizedWordsNoUnderscore(words: seq<string>)
    requires forall k :: 0 <= k < |words| ==> '_' !in words[k]
    ensures forall k :: 0 <= k < |CapitalizedWords(words)| ==> '_' !in CapitalizedWords(words)[k]
  {
    if |words| > 0 {
      CapitalizedWordsNoUnderscore(words[..|words| - 1]);
      var last := words[|words| - 1];
      if last != "" {
        assert UpperRune(last[0]) != '_';
        assert Capitalize(last)[1..] == last[1..];
      }
    }
  }

  lemma {:induction false} JoinAvoids(words: seq<string>, sep: string, c: char)
    requires forall k :: 0 <= k < |words| ==> c !in words[k]
    requires c !in sep
    ensures c !in Join(words, sep)
  {
    if |words| > 1 {
      JoinAvoids(words[1..], sep, c);
    }
  }

  /** The display name never contains an underscore. */
  lemma PrettyNameHasNoUnderscore(value: string)
    ensures '_' !in PrettyName(value)
  {
    SplitPiecesHaveNoUnderscore(Trim(value));
    CapitalizedWordsNoUnderscore(Split(Trim(value)));
    JoinAvoids(CapitalizedWords(Split(Trim(value))), " ", '_');
  }

  lemma {:induction false} JoinEmpty(words: seq<string>, sep: string)
    requires forall k :: 0 <= k < |words| ==> words[k] != ""
    ensures Join(words, sep) == "" <==> words == []
  {
    if |words| > 1 {
      assert |Join(words, sep)| >= |words[0]|;
    }
  }

  lemma {:induction false} WordsEmptyIffAllUnderscores(s: string)
    ensures CapitalizedWords(Split(s)) == [] <==> forall i :: 0 <= i < |s| ==> s[i] == '_'
  {
    if |s| > 0 {
      var t := s[1..];
      assert s == [s[0]] + t;
      if s[0] == '_' {
        WordsUnderscoreLeft(t);
        WordsEmptyIffAllUnderscores(t);
        assert forall i :: 0 < i < |s| ==> s[i] == t[i - 1];
      } else {
        SplitCons(s[0], t);
        var rest := Split(t);
        var first := [s[0]] + rest[0];
        CapitalizedWordsAppend([first], rest[1..]);
        assert [first][..0] == [];
        assert CapitalizedWords([first]) == [Capitalize(first)];
      }
    }
  }

  /** The display name is empty exactly for the empty and the
      all-underscore keys. */
  lemma PrettyNameEmptyIff(value: string)
    ensures PrettyName(value) == "" <==> forall i :: 0 <= i < |value| ==> value[i] == '_'
  {
    TrimKeepsWords(value);
    WordsEmptyIffAllUnderscores(value);
    JoinEmpty(CapitalizedWords(Split(Trim(value))), " ");
  }

  /** The seeded keys' shape: one word between double underscores. */
  lemma PrettyNameOneWord(word: string)
    requires word != "" && '_' !in word
    ensures PrettyName("__" + word + "__") == Capitalize(word)
  {
    var s := "__" + word + "__";
    var w2 := word + "__";
    assert s == "_" + ("_" + w2);
    WordsUnderscoreLeft("_" + w2);
    WordsUnderscoreLeft(w2);
    WordsBeforeUnderscores(word);
    TrimKeepsWords(s);
  }

  lemma WordsAfterUnderscores(word: string)
    requires word != "" && '_' !in word
    ensures CapitalizedWords(Split("__" + word)) == [Capitalize(word)]
  {
    assert "__" + word == "_" + ("_" + word);
    WordsUnderscoreLeft("_" + word);
    WordsUnderscoreLeft(word);
    WordsOfWord(word);
  }

  lemma WordsBeforeUnderscores(word: string)
    requires word != "" && '_' !in word
    ensures CapitalizedWords(Split(word + "__")) == [Capitalize(word)]
  {
    assert word + "__" == (word + "_") + "_";
    WordsUnderscoreRight(word + "_");
    WordsUnderscoreRight(word);
    WordsOfWord(word);
  }

  lemma WordsOfTwo(first: string, second: string)
    requires first != "" && '_' !in first
    requires second != "" && '_' !in second
    ensures CapitalizedWords(Split("__" + first + "_" + second + "__")) == [Capitalize(first), Capitalize(second)]
  {
    assert "__" + first + "_" + second + "__" == ("__" + first) + "_" + (second + "__");
    WordsAround("__" + first, second + "__");
    WordsAfterUnderscores(first);
    WordsBeforeUnderscores(second);
  }

  /** Two words between double underscores become two capitalised words
      separated by a space. */
  lemma PrettyNameTwoWords(first: string, second: string)
    requires first != "" && '_' !in first
    requires second != "" && '_' !in second
    ensures PrettyName("__" + first + "_" + second + "__") == Capitalize(first) + " " + Capitalize(second)
  {
    var s := "__" + first + "_" + second + "__";
    TrimKeepsWords(s);
    WordsOfTwo(first, second);
    var words := [Capitalize(first), Capitalize(second)];
    assert words[1..] == [Capitalize(second)];
    assert Join(words, " ") == Capitalize(first) + " " + Capitalize(second);
  }

  /** The one-word seeded role keys (pkg/db/seed.go:14) get their display names. */
  lemma PrettyNameSeededKeys()
    ensures PrettyName("__superadmin__") == "Superadmin"
    ensures PrettyName("__admin__") == "Admin"
    ensures PrettyName("__customer__") == "Customer"
  {
    PrettyNameOneWord("superadmin");
    assert "__" + "superadmin" + "__" == "__superadmin__";
    assert Capitalize("superadmin") == "Superadmin";
    PrettyNameOneWord("admin");
    assert "__" + "admin" + "__" == "__admin__";
    assert Capitalize("admin") == "Admin";
    PrettyNameOneWord("customer");
    assert "__" + "customer" + "__" == "__customer__";
    assert Capitalize("customer") == "Customer";
  }

  /** The seeded two-word key gets a space between its words. */
  lemma PrettyNameRestaurantOwner()
    ensures PrettyName("__restaurant_owner__") == "Restaurant Owner"
  {
    assert "__" + "restaurant" + "_" + "owner" + "__" == "__restaurant_owner__";
    PrettyNameTwoWords("restaurant", "owner");
    var first := Capitalize("restaurant");
    var second := Capitalize("owner");
    assert first == "Restaurant" && second == "Owner";
    assert first + " " + second == "Restaurant Owner";
  }

  /** Only the first rune of each word changes: the rest is not lower-cased. */
  lemma PrettyNameKeepsCase()
    ensures PrettyName("__ADMIN__") == "ADMIN"
  {
    PrettyNameOneWord("ADMIN");
    assert "__" + "ADMIN" + "__" == "__ADMIN__";
  }

  // ---------------------------------------------------------------------
  // GetUserTypes

  /** A row of the user-types list: id, stored key and display name. */
  datatype UserTypeEntry = UserTypeEntry(id: int, key: string, name: string)

  /** The placeholder GetUserTypes returns beside an error. */
  const Placeholder: UserTypeEntry := UserTypeEntry(0, "", "")

  /** GetUserTypes (user_types.go:73-106). It reconnects, runs the id-ordered
      SELECT and turns each row into an entry with its display name. Scan
      cannot fail on this schema (both columns NOT NULL, id an INT), and
      rows.Err is never consulted. */
  method GetUserTypes(wh: WebHandlers, o: Oracles) returns (entries: seq<UserTypeEntry>, err: Option<Error>)
    requires wh.db.Handle? && wh.server.Valid()
    modifies wh`db
    ensures wh.db == Reconnected(old(wh.db), o)
    ensures err.Some? <==> !Reconnects(old(wh.db), o) || !o.queryOk
    ensures err.Some? ==> entries == [Placeholder]
    ensures err.None? ==>
      && |entries| == |wh.server.userTypes|
      && (forall k :: 0 <= k < |entries| ==>
            entries[k].id == wh.server.userTypes[k].id
            && entries[k].key == wh.server.userTypes[k].name
            && entries[k].name == PrettyName(wh.server.userTypes[k].name)
            && '_' !in entries[k].name)
      && (forall k, l :: 0 <= k < l < |entries| ==> entries[k].id < entries[l].id)
  {
    err := wh.ReconnectDB(o);
    if err.Some? {
      return [Placeholder], err;
    }
    if !QueriesSucceed(wh.db, o) {
      return [Placeholder], Some(QueryError);
    }
    var rows := wh.server.userTypes;
    entries := [];
    for i := 0 to |rows|
      invariant wh.db == Reconnected(old(wh.db), o)
      invariant |entries| == i
      invariant forall k :: 0 <= k < i ==>
        entries[k].id == rows[k].id && entries[k].key == rows[k].name
        && entries[k].name == PrettyName(rows[k].name) && '_' !in entries[k].name
    {
      var name := UserTypeNameToString(rows[i].name);
      PrettyNameHasNoUnderscore(rows[i].name);
      entries := entries + [UserTypeEntry(rows[i].id, rows[i].name, name)];
    }
    assert forall k, l :: 0 <= k < l < |rows| ==> rows[k].id < rows[l].id;
  }

  // ---------------------------------------------------------------------
  // UserTypesDeleteHandler

  /** Whether sub occurs in s starting at index i. */
  predicate OccursAt(s: string, sub: string, i: nat) {
    i + |sub| <= |s| && s[i..i + |sub|] == sub
  }

  /** strings.Contains */
  predicate Contains(s: string, sub: string) {
    exists i: nat :: i <= |s| && OccursAt(s, sub, i)
  }

  /** Every string contains the empty string, so an empty id is always refused. */
  lemma ContainsEmpty(s: string)
    ensures Contains(s, "")
  {
    assert OccursAt(s, "", 0);
  }

  /** The restriction is a substring test on the configured text: with
      "1,2" configured, "1" and "2" are refused, and so is ",", while
      "12" is not. */
  lemma ContainsExamples()
    ensures Contains("1,2", "1") && Contains("1,2", "2") && Contains("1,2", ",")
    ensures !Contains("1,2", "12")
  {
    assert OccursAt("1,2", "1", 0);
    assert OccursAt("1,2", "2", 2);
    assert OccursAt("1,2", ",", 1);
    forall i: nat | i <= 3
      ensures !OccursAt("1,2", "12", i)
    {
      if i + 2 <= 3 {
        assert "1,2"[i..i + 2][0] == "1,2"[i];
        assert "1,2"[i..i + 2][1] == "1,2"[i + 1];
      }
    }
  }

  /** The delete with ON DELETE CASCADE from users.user_type_id. */
  function WithoutType(types: seq<UserTypeRow>, id: int): (r: seq<UserTypeRow>)
    ensures forall t :: t in r <==> t in types && t.id != id
    ensures (forall i, j :: 0 <= i < j < |types| ==> types[i].id < types[j].id) ==>
            (forall i, j :: 0 <= i < j < |r| ==> r[i].id < r[j].id)
  {
    if |types| == 0 then []
    else if types[0].id == id then WithoutType(types[1..], id)
    else
      assert forall t :: t in types[1..] ==> t in types;
      [types[0]] + WithoutType(types[1..], id)
  }

  /** user_id and email stay unique after dropping the first row, and the
      first row differs from every other row in both. */
  lemma UniqueUsersCons(head: User, tail: seq<User>)
    requires UniqueUsers([head] + tail)
    ensures UniqueUsers(tail)
    ensures forall u :: u in tail ==> u.id != head.id && u.email != head.email
  {
    var s := [head] + tail;
    assert forall k :: 0 <= k < |tail| ==> s[k + 1] == tail[k];
    forall u | u in tail
      ensures u.id != head.id && u.email != head.email
    {
      var k :| 0 <= k < |tail| && tail[k] == u;
      assert s[0] == head && s[k + 1] == u;
    }
  }

  lemma UniqueUsersPrepend(head: User, tail: seq<User>)
    requires UniqueUsers(tail)
    requires forall u :: u in tail ==> u.id != head.id && u.email != head.email
    ensures UniqueUsers([head] + tail)
  {
    var s := [head] + tail;
    forall i, j | 0 <= i < j < |s|
      ensures s[i].id != s[j].id && s[i].email != s[j].email
    {
      assert s[j] == tail[j - 1];
      if i > 0 {
        assert s[i] == tail[i - 1];
      }
    }
  }

  function WithoutUsersOfType(users: seq<User>, id: int): (r: seq<User>)
    ensures forall u :: u in r <==> u in users && u.userTypeId != id
    ensures UniqueUsers(users) ==> UniqueUsers(r)
  {
    if |users| == 0 then []
    else
      var rest := WithoutUsersOfType(users[1..], id);
      assert users == [users[0]] + users[1..];
      if UniqueUsers(users) then
        UniqueUsersCons(users[0], users[1..]);
        if users[0].userTypeId == id then rest
        else
          UniqueUsersPrepend(users[0], rest);
          [users[0]] + rest
      else if users[0].userTypeId == id then rest
      else [users[0]] + rest
  }

  function RestrictedMessage(idStr: string): string {
    "User Type '" + idStr + "' is configured as restricted from deletetion"
  }

  /** UserTypesDeleteHandler (user_types.go:208-240). Only POST is
      accepted; an id whose text occurs anywhere in the configured
      restricted string is refused with 409 and nothing is deleted; any
      other id is parsed with the error discarded and deleted through the
      shared handle without reconnecting. */
  method UserTypesDeleteHandler(wh: WebHandlers, w: ResponseWriter, r: Request, o: Oracles)
    requires wh.db.Handle? && wh.server.Valid()
    requires w.status == 0 && w.location == None && w.body == []
    modifies w, wh.server`userTypes, wh.server`users
    ensures wh.server.Valid()
    ensures r.httpMethod != "POST" ==>
      w.status == StatusMethodNotAllowed && w.body == [Text("Invalid method")] && w.location == None
    ensures r.httpMethod == "POST" && Contains(o.restrictedUserTypes, FormValue(r, "id")) ==>
      w.status == StatusConflict && w.body == [Text(RestrictedMessage(FormValue(r, "id")))] && w.location == None
    ensures var deleted := r.httpMethod == "POST" && !Contains(o.restrictedUserTypes, FormValue(r, "id"))
                           && !wh.db.closed && o.prepareOk && o.execOk;
      var id := StrConv.ParseInt64Value(FormValue(r, "id"));
      && (deleted ==> wh.server.userTypes == WithoutType(old(wh.server.userTypes), id)
                      && wh.server.users == WithoutUsersOfType(old(wh.server.users), id)
                      && w.status == StatusSeeOther && w.location == Some("/user_types"))
      && (!deleted ==> wh.server.userTypes == old(wh.server.userTypes) && wh.server.users == old(wh.server.users))
      && (!deleted && r.httpMethod == "POST" && !Contains(o.restrictedUserTypes, FormValue(r, "id")) ==>
            w.status == StatusInternalServerError)
  {
    if r.httpMethod != "POST" {
      w.Error("Invalid method", StatusMethodNotAllowed);
      return;
    }
    var idStr := FormValue(r, "id");
    if Contains(o.restrictedUserTypes, idStr) {
      w.Error(RestrictedMessage(idStr), StatusConflict);
      return;
    }
    var id := StrConv.ParseInt64Value(idStr);
    if wh.db.closed || !o.prepareOk {
      w.Error(ErrorMessage(PrepareError), StatusInternalServerError);
      return;
    }
    if !o.execOk {
      w.Error(ErrorMessage(ExecError), StatusInternalServerError);
      return;
    }
    wh.server.userTypes := WithoutType(wh.server.userTypes, id);
    wh.server.users := WithoutUsersOfType(wh.server.users, id);
    w.Redirect("/user_types");
  }
}
