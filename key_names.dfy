/**
 * The UWP virtual-key name table: a constant std::map from VirtualKey codes to
 * key names, looked up by code (GetKeyName) and searched by name in key order
 * (GetKeyCodeForName).
 *
 * The map is modelled as an association list sorted by code, built from the
 * initializer list by std::map's insertion, which keeps the first entry for a
 * code that is already present.
 */
module KeyNames {
  import opened Wrappers

  /** One `{VirtualKey::X, "name"}` pair of the initializer list. */
  datatype KeyEntry = KeyEntry(code: int, name: string)

  /** Number of pairs in the initializer list. */
  const TABLE_SIZE: nat := 145

  /** Lines 31-40 of the initializer list. */
  const LIST_0: seq<KeyEntry> := [
    KeyEntry(1, "LeftButton"),
    KeyEntry(2, "RightButton"),
    KeyEntry(3, "Cancel"),
    KeyEntry(4, "MiddleButton"),
    KeyEntry(5, "XButton1"),
    KeyEntry(6, "XButton2"),
    KeyEntry(8, "Back"),
    KeyEntry(9, "Tab"),
    KeyEntry(12, "Clear"),
    KeyEntry(13, "Return")
  ]

  /** Lines 41-50 of the initializer list. */
  const LIST_1: seq<KeyEntry> := [
    KeyEntry(16, "Shift"),
    KeyEntry(17, "Control"),
    KeyEntry(18, "Menu"),
    KeyEntry(19, "Pause"),
    KeyEntry(20, "CapitalLock"),
    KeyEntry(21, "Kana"),
    KeyEntry(21, "Hangul"),
    KeyEntry(23, "Junja"),
    KeyEntry(24, "Final"),
    KeyEntry(25, "Hanja")
  ]

  /** Lines 51-60 of the initializer list. */
  const LIST_2: seq<KeyEntry> := [
    KeyEntry(25, "Kanji"),
    KeyEntry(27, "Escape"),
    KeyEntry(28, "Convert"),
    KeyEntry(29, "NonConvert"),
    KeyEntry(30, "Accept"),
    KeyEntry(31, "ModeChange"),
    KeyEntry(32, "Space"),
    KeyEntry(33, "PageUp"),
    KeyEntry(34, "PageDown"),
    KeyEntry(35, "End")
  ]

  /** Lines 61-70 of the initializer list. */
  const LIST_3: seq<KeyEntry> := [
    KeyEntry(36, "Home"),
    KeyEntry(37, "Left"),
    KeyEntry(38, "Up"),
    KeyEntry(39, "Right"),
    KeyEntry(40, "Down"),
    KeyEntry(41, "Select"),
    KeyEntry(42, "Print"),
    KeyEntry(43, "Execute"),
    KeyEntry(44, "Snapshot"),
    KeyEntry(45, "Insert")
  ]

  /** Lines 71-80 of the initializer list. */
  const LIST_4: seq<KeyEntry> := [
    KeyEntry(46, "Delete"),
    KeyEntry(47, "Help"),
    KeyEntry(48, "Number0"),
    KeyEntry(49, "Number1"),
    KeyEntry(50, "Number2"),
    KeyEntry(51, "Number3"),
    KeyEntry(52, "Number4"),
    KeyEntry(53, "Number5"),
    KeyEntry(54, "Number6"),
    KeyEntry(55, "Number7")
  ]

  /** Lines 81-90 of the initializer list. */
  const LIST_5: seq<KeyEntry> := [
    KeyEntry(56, "Number8"),
    KeyEntry(57, "Number9"),
    KeyEntry(65, "A"),
    KeyEntry(66, "B"),
    KeyEntry(67, "C"),
    KeyEntry(68, "D"),
    KeyEntry(69, "E"),
    KeyEntry(70, "F"),
    KeyEntry(71, "G"),
    KeyEntry(72, "H")
  ]

  /** Lines 91-100 of the initializer list. */
  const LIST_6: seq<KeyEntry> := [
    KeyEntry(73, "I"),
    KeyEntry(74, "J"),
    KeyEntry(75, "K"),
    KeyEntry(76, "L"),
    KeyEntry(77, "M"),
    KeyEntry(78, "N"),
    KeyEntry(79, "O"),
    KeyEntry(80, "P"),
    KeyEntry(81, "Q"),
    KeyEntry(82, "R")
  ]

  /** Lines 101-110 of the initializer list. */
  const LIST_7: seq<KeyEntry> := [
    KeyEntry(83, "S"),
    KeyEntry(84, "T"),
    KeyEntry(85, "U"),
    KeyEntry(86, "V"),
    KeyEntry(87, "W"),
    KeyEntry(88, "X"),
    KeyEntry(89, "Y"),
    KeyEntry(90, "Z"),
    KeyEntry(91, "LeftWindows"),
    KeyEntry(92, "RightWindows")
  ]

  /** Lines 111-120 of the initializer list. */
  const LIST_8: seq<KeyEntry> := [
    KeyEntry(93, "Application"),
    KeyEntry(95, "Sleep"),
    KeyEntry(96, "Keypad+0"),
    KeyEntry(97, "Keypad+1"),
    KeyEntry(98, "Keypad+2"),
    KeyEntry(99, "Keypad+3"),
    KeyEntry(100, "Keypad+4"),
    KeyEntry(101, "Keypad+5"),
    KeyEntry(102, "Keypad+6"),
    KeyEntry(103, "Keypad+7")
  ]

  /** Lines 121-130 of the initializer list. */
  const LIST_9: seq<KeyEntry> := [
    KeyEntry(104, "Keypad+8"),
    KeyEntry(105, "Keypad+9"),
    KeyEntry(106, "Multiply"),
    KeyEntry(107, "Add"),
    KeyEntry(108, "Separator"),
    KeyEntry(109, "Subtract"),
    KeyEntry(110, "Decimal"),
    KeyEntry(111, "Divide"),
    KeyEntry(112, "F1"),
    KeyEntry(113, "F2")
  ]

  /** Lines 131-140 of the initializer list. */
  const LIST_10: seq<KeyEntry> := [
    KeyEntry(114, "F3"),
    KeyEntry(115, "F4"),
    KeyEntry(116, "F5"),
    KeyEntry(117, "F6"),
    KeyEntry(118, "F7"),
    KeyEntry(119, "F8"),
    KeyEntry(120, "F9"),
    KeyEntry(121, "F10"),
    KeyEntry(122, "F11"),
    KeyEntry(123, "F12")
  ]

  /** Lines 141-150 of the initializer list. */
  const LIST_11: seq<KeyEntry> := [
    KeyEntry(124, "F13"),
    KeyEntry(125, "F14"),
    KeyEntry(126, "F15"),
    KeyEntry(127, "F16"),
    KeyEntry(128, "F17"),
    KeyEntry(129, "F18"),
    KeyEntry(130, "F19"),
    KeyEntry(131, "F20"),
    KeyEntry(132, "F21"),
    KeyEntry(133, "F22")
  ]

  /** Lines 151-160 of the initializer list. */
  const LIST_12: seq<KeyEntry> := [
    KeyEntry(134, "F23"),
    KeyEntry(135, "F24"),
    KeyEntry(136, "NavigationView"),
    KeyEntry(137, "NavigationMenu"),
    KeyEntry(138, "NavigationUp"),
    KeyEntry(139, "NavigationDown"),
    KeyEntry(140, "NavigationLeft"),
    KeyEntry(141, "NavigationRight"),
    KeyEntry(142, "NavigationAccept"),
    KeyEntry(143, "NavigationCancel")
  ]

  /** Lines 161-170 of the initializer list. */
  const LIST_13: seq<KeyEntry> := [
    KeyEntry(144, "NumberKeyLock"),
    KeyEntry(145, "Scroll"),
    KeyEntry(160, "LeftShift"),
    KeyEntry(161, "RightShift"),
    KeyEntry(162, "LeftControl"),
    KeyEntry(163, "RightControl"),
    KeyEntry(164, "LeftMenu"),
    KeyEntry(165, "RightMenu"),
    KeyEntry(166, "GoBack"),
    KeyEntry(167, "GoForward")
  ]

  /** Lines 171-175 of the initializer list. */
  const LIST_14: seq<KeyEntry> := [
    KeyEntry(168, "Refresh"),
    KeyEntry(169, "Stop"),
    KeyEntry(170, "Search"),
    KeyEntry(171, "Favorites"),
    KeyEntry(172, "GoHome")
  ]

  /** The i-th pair of the initializer list, in source order. */
  function Listed(i: nat): KeyEntry
    requires i < TABLE_SIZE
  {
    if i < 10 then LIST_0[i]
    else if i < 20 then LIST_1[i - 10]
    else if i < 30 then LIST_2[i - 20]
    else if i < 40 then LIST_3[i - 30]
    else if i < 50 then LIST_4[i - 40]
    else if i < 60 then LIST_5[i - 50]
    else if i < 70 then LIST_6[i - 60]
    else if i < 80 then LIST_7[i - 70]
    else if i < 90 then LIST_8[i - 80]
    else if i < 100 then LIST_9[i - 90]
    else if i < 110 then LIST_10[i - 100]
    else if i < 120 then LIST_11[i - 110]
    else if i < 130 then LIST_12[i - 120]
    else if i < 140 then LIST_13[i - 130]
    else LIST_14[i - 140]
  }

  /** The initializer list as one sequence. */
  function InitializerList(): (l: seq<KeyEntry>)
    ensures |l| == TABLE_SIZE
    ensures forall i :: 0 <= i < TABLE_SIZE ==> l[i] == Listed(i)
  {
    seq(TABLE_SIZE, i requires 0 <= i < TABLE_SIZE => Listed(i))
  }

  // ---------------------------------------------------------------------------
  // std::map as a sorted association list
  // ---------------------------------------------------------------------------

  /** Codes strictly increase along the list: the iteration order of std::map. */
  ghost predicate StrictlySorted(m: seq<KeyEntry>)
  {
    forall i, j :: 0 <= i < j < |m| ==> m[i].code < m[j].code
  }

  /** Some pair of `s` carries the code `k`. */
  ghost predicate HasCode(s: seq<KeyEntry>, k: int)
  {
    exists x :: x in s && x.code == k
  }

  /** `e` is the first pair of `l` that carries the code `e.code`. */
  ghost predicate FirstWithCode(l: seq<KeyEntry>, e: KeyEntry)
  {
    exists i :: 0 <= i < |l| && l[i] == e && forall j :: 0 <= j < i ==> l[j].code != e.code
  }

  /** std::map::insert into a map kept sorted by code; a pair whose code is already present is dropped. */
  function Insert(m: seq<KeyEntry>, e: KeyEntry): seq<KeyEntry>
  {
    if m == [] then [e]
    else if e.code < m[0].code then [e] + m
    else if e.code == m[0].code then m
    else [m[0]] + Insert(m[1..], e)
  }

  /** Insertion keeps every stored pair and adds nothing but `e`. */
  lemma {:induction false} InsertMembers(m: seq<KeyEntry>, e: KeyEntry)
    ensures forall x :: x in m ==> x in Insert(m, e)
    ensures forall x :: x in Insert(m, e) ==> x in m || x == e
  {
    if m != [] && e.code > m[0].code {
      InsertMembers(m[1..], e);
      assert m == [m[0]] + m[1..];
    }
  }

  /** The tail of a sorted map is sorted, and its codes are all above the head's. */
  lemma SortedTail(m: seq<KeyEntry>)
    requires StrictlySorted(m) && m != []
    ensures StrictlySorted(m[1..])
    ensures forall x :: x in m[1..] ==> m[0].code < x.code
  {
    var t := m[1..];
    forall i, j | 0 <= i < j < |t| ensures t[i].code < t[j].code {
      assert t[i] == m[i + 1] && t[j] == m[j + 1];
    }
    forall x | x in t ensures m[0].code < x.code {
      var i :| 0 <= i < |t| && t[i] == x;
      assert m[i + 1] == x;
    }
  }

  /** A pair whose code is below every code of a sorted map can go in front of it. */
  lemma SortedCons(h: KeyEntry, r: seq<KeyEntry>)
    requires StrictlySorted(r)
    requires forall x :: x in r ==> h.code < x.code
    ensures StrictlySorted([h] + r)
  {
    var s := [h] + r;
    forall i, j | 0 <= i < j < |s| ensures s[i].code < s[j].code {
      assert s[j] == r[j - 1] && r[j - 1] in r;
      if i > 0 {
        assert s[i] == r[i - 1];
      }
    }
  }

  /** Insertion keeps the map sorted by code. */
  lemma {:induction false} InsertSorted(m: seq<KeyEntry>, e: KeyEntry)
    requires StrictlySorted(m)
    ensures StrictlySorted(Insert(m, e))
  {
    if m == [] {
    } else if e.code < m[0].code {
      SortedTail(m);
      assert m == [m[0]] + m[1..];
      SortedCons(e, m);
    } else if e.code > m[0].code {
      var t := m[1..];
      SortedTail(m);
      InsertSorted(t, e);
      InsertMembers(t, e);
      SortedCons(m[0], Insert(t, e));
    }
  }

  /** After insertion `e` is stored exactly when it already was or no stored pair had its code. */
  lemma {:induction false} InsertAddsNew(m: seq<KeyEntry>, e: KeyEntry)
    requires StrictlySorted(m)
    ensures e in Insert(m, e) <==> e in m || !HasCode(m, e.code)
  {
    if m == [] {
    } else if e.code < m[0].code {
      SortedTail(m);
      assert m == [m[0]] + m[1..];
      assert !HasCode(m, e.code);
    } else if e.code == m[0].code {
      assert m[0] in m;
    } else {
      var t := m[1..];
      SortedTail(m);
      InsertAddsNew(t, e);
      assert m == [m[0]] + t;
      assert HasCode(m, e.code) <==> HasCode(t, e.code);
    }
  }

  /** Insertion keeps the map sorted and adds `e` exactly when its code is new. */
  lemma InsertSpec(m: seq<KeyEntry>, e: KeyEntry)
    requires StrictlySorted(m)
    ensures StrictlySorted(Insert(m, e))
    ensures forall x :: x in Insert(m, e) <==> x in m || (x == e && !HasCode(m, e.code))
  {
    InsertMembers(m, e);
    InsertSorted(m, e);
    InsertAddsNew(m, e);
  }

  /** The map built from an initializer list, one insertion per pair in list order. */
  function MapFromList(l: seq<KeyEntry>): seq<KeyEntry>
  {
    if l == [] then [] else Insert(MapFromList(l[..|l| - 1]), l[|l| - 1])
  }

  /** The map is sorted and holds, for each code of the list, the first pair carrying it. */
  lemma {:induction false} MapFromListFirsts(l: seq<KeyEntry>)
    ensures StrictlySorted(MapFromList(l))
    ensures forall x :: x in MapFromList(l) <==> FirstWithCode(l, x)
  {
    if l != [] {
      var p, e := l[..|l| - 1], l[|l| - 1];
      MapFromListFirsts(p);
      FirstsCarryAllCodes(p, MapFromList(p));
      InsertSpec(MapFromList(p), e);
      InsertKeepsFirst(l);
      assert HasCode(MapFromList(p), e.code) <==> HasCode(p, e.code);
      forall x ensures x in MapFromList(l) <==> FirstWithCode(l, x) {
        assert x in MapFromList(l) <==> x in MapFromList(p) || (x == e && !HasCode(MapFromList(p), e.code));
      }
    }
  }

  /** The position of the first pair of `l` that carries `k`. */
  lemma {:induction false} FirstIndex(l: seq<KeyEntry>, k: int) returns (i: nat)
    requires HasCode(l, k)
    ensures i < |l| && l[i].code == k
    ensures forall j :: 0 <= j < i ==> l[j].code != k
  {
    if l[0].code == k {
      i := 0;
    } else {
      assert l == [l[0]] + l[1..];
      var x :| x in l && x.code == k;
      assert x in l[1..];
      var i' := FirstIndex(l[1..], k);
      i := i' + 1;
      forall j | 0 <= j < i ensures l[j].code != k {
        if j > 0 {
          assert l[j] == l[1..][j - 1];
        }
      }
    }
  }

  /** A collection of exactly the first occurrences in `l` carries the same codes as `l`. */
  lemma FirstsCarryAllCodes(l: seq<KeyEntry>, m: seq<KeyEntry>)
    requires forall x :: x in m <==> FirstWithCode(l, x)
    ensures forall k :: HasCode(m, k) <==> HasCode(l, k)
  {
    forall k ensures HasCode(m, k) <==> HasCode(l, k) {
      if HasCode(l, k) {
        var i := FirstIndex(l, k);
        assert FirstWithCode(l, l[i]);
        assert l[i] in m;
      }
      if HasCode(m, k) {
        var x :| x in m && x.code == k;
        assert FirstWithCode(l, x);
        var i :| 0 <= i < |l| && l[i] == x && forall j :: 0 <= j < i ==> l[j].code != x.code;
        assert l[i] in l;
      }
    }
  }

  /**
   * The map holds, for each code of the list, the first pair carrying it, and
   * nothing else; its iteration order is ascending by code.
   */
  lemma MapFromListSpec(l: seq<KeyEntry>)
    ensures StrictlySorted(MapFromList(l))
    ensures forall x :: x in MapFromList(l) <==> FirstWithCode(l, x)
    ensures forall k :: HasCode(MapFromList(l), k) <==> HasCode(l, k)
  {
    MapFromListFirsts(l);
    FirstsCarryAllCodes(l, MapFromList(l));
  }

  /** A first occurrence in `l` is one in its prefix, or `l`'s last pair with a code new to the prefix. */
  lemma FirstInExtended(l: seq<KeyEntry>, x: KeyEntry)
    requires l != [] && FirstWithCode(l, x)
    ensures FirstWithCode(l[..|l| - 1], x) || (x == l[|l| - 1] && !HasCode(l[..|l| - 1], x.code))
  {
    var p := l[..|l| - 1];
    var i :| 0 <= i < |l| && l[i] == x && forall j :: 0 <= j < i ==> l[j].code != x.code;
    if i < |p| {
      assert p[i] == x;
      forall j | 0 <= j < i ensures p[j].code != x.code {
        assert p[j] == l[j];
      }
    } else {
      forall y | y in p ensures y.code != x.code {
        var j :| 0 <= j < |p| && p[j] == y;
        assert l[j] == y;
      }
    }
  }

  /** A first occurrence in the prefix stays one after appending. */
  lemma FirstInPrefix(l: seq<KeyEntry>, x: KeyEntry)
    requires l != [] && FirstWithCode(l[..|l| - 1], x)
    ensures FirstWithCode(l, x)
  {
    var p := l[..|l| - 1];
    var i :| 0 <= i < |p| && p[i] == x && forall j :: 0 <= j < i ==> p[j].code != x.code;
    assert l[i] == x;
    forall j | 0 <= j < i ensures l[j].code != x.code {
      assert p[j] == l[j];
    }
  }

  /** The appended pair is a first occurrence when the prefix lacks its code. */
  lemma FirstAppended(l: seq<KeyEntry>)
    requires l != [] && !HasCode(l[..|l| - 1], l[|l| - 1].code)
    ensures FirstWithCode(l, l[|l| - 1])
  {
    var p := l[..|l| - 1];
    forall j | 0 <= j < |l| - 1 ensures l[j].code != l[|l| - 1].code {
      assert p[j] == l[j] && p[j] in p;
    }
  }

  /** Appending a pair to the list adds it as a first occurrence exactly when its code is new. */
  lemma InsertKeepsFirst(l: seq<KeyEntry>)
    requires l != []
    ensures forall x :: FirstWithCode(l, x) <==>
      FirstWithCode(l[..|l| - 1], x) || (x == l[|l| - 1] && !HasCode(l[..|l| - 1], x.code))
  {
    forall x
      ensures FirstWithCode(l, x) <==>
        FirstWithCode(l[..|l| - 1], x) || (x == l[|l| - 1] && !HasCode(l[..|l| - 1], x.code))
    {
      if FirstWithCode(l, x) {
        FirstInExtended(l, x);
      }
      if FirstWithCode(l[..|l| - 1], x) {
        FirstInPrefix(l, x);
      }
      if x == l[|l| - 1] && !HasCode(l[..|l| - 1], x.code) {
        FirstAppended(l);
      }
    }
  }

  /** std::map::find. */
  function Find(m: seq<KeyEntry>, k: int): (r: Option<string>)
    ensures r.Some? ==> KeyEntry(k, r.value) in m
    ensures r.None? <==> !HasCode(m, k)
  {
    if m == [] then None
    else if m[0].code == k then Some(m[0].name)
    else Find(m[1..], k)
  }

  /** The range-for search of GetKeyCodeForName: first pair in iteration order with that name. */
  function FindName(m: seq<KeyEntry>, s: string): (r: Option<int>)
    ensures r.Some? ==> KeyEntry(r.value, s) in m
    ensures r.None? <==> forall x | x in m :: x.name != s
  {
    if m == [] then None
    else if m[0].name == s then Some(m[0].code)
    else FindName(m[1..], s)
  }

  // ---------------------------------------------------------------------------
  // The table and its two lookups
  // ---------------------------------------------------------------------------

  /** s_key_names. */
  function KeyMap(): seq<KeyEntry>
  {
    MapFromList(InitializerList())
  }

  /** GetKeyName: the stored name of `key`, None standing for nullptr. */
  function GetKeyName(key: int): Option<string>
  {
    Find(KeyMap(), key)
  }

  /** GetKeyCodeForName: exact, case-sensitive comparison against the stored names. */
  function GetKeyCodeForName(name: string): Option<int>
  {
    FindName(KeyMap(), name)
  }

  /**
   * GetKeyName finds a name exactly for the listed codes, and the name it finds
   * is the one of the first listed pair with that code.
   */
  lemma GetKeyNameSpec(key: int)
    ensures GetKeyName(key).Some? <==> exists i :: 0 <= i < TABLE_SIZE && Listed(i).code == key
    ensures GetKeyName(key).Some? ==> FirstWithCode(InitializerList(), KeyEntry(key, GetKeyName(key).value))
  {
    var l := InitializerList();
    MapFromListSpec(l);
    if GetKeyName(key).None? {
      forall i | 0 <= i < TABLE_SIZE ensures Listed(i).code != key {
        assert l[i] in l;
      }
    } else {
      assert HasCode(l, key);
      var x :| x in l && x.code == key;
      var i :| 0 <= i < |l| && l[i] == x;
      assert Listed(i).code == key;
    }
  }

  /**
   * GetKeyCodeForName finds a code exactly when some stored pair carries the
   * name, and then the pair it finds is stored.
   */
  lemma GetKeyCodeForNameSpec(name: string)
    ensures GetKeyCodeForName(name).Some? ==> FirstWithCode(InitializerList(), KeyEntry(GetKeyCodeForName(name).value, name))
    ensures GetKeyCodeForName(name).None? <==> forall x | FirstWithCode(InitializerList(), x) :: x.name != name
  {
    MapFromListSpec(InitializerList());
  }

  /** Looking a found code back up gives the name that was searched for. */
  lemma CodeForNameRoundTrip(name: string)
    ensures GetKeyCodeForName(name).Some? ==> GetKeyName(GetKeyCodeForName(name).value) == Some(name)
  {
    var m := KeyMap();
    MapFromListSpec(InitializerList());
    var r := GetKeyCodeForName(name);
    if r.Some? {
      var i :| 0 <= i < |m| && m[i] == KeyEntry(r.value, name);
      FindInSorted(m, i);
    }
  }

  /** In a map with strictly increasing codes, find returns the name stored at that code. */
  lemma {:induction false} FindInSorted(m: seq<KeyEntry>, i: nat)
    requires StrictlySorted(m)
    requires i < |m|
    ensures Find(m, m[i].code) == Some(m[i].name)
  {
    if i > 0 {
      FindInSorted(m[1..], i - 1);
    }
  }

  /** In a map whose names are pairwise distinct, the name search returns the code of that entry. */
  lemma {:induction false} FindNameDistinct(m: seq<KeyEntry>, i: nat)
    requires forall a, b :: 0 <= a < b < |m| ==> m[a].name != m[b].name
    requires i < |m|
    ensures FindName(m, m[i].name) == Some(m[i].code)
  {
    if i > 0 {
      assert m[0].name != m[i].name;
      FindNameDistinct(m[1..], i - 1);
    }
  }

  /** Searching for a stored name gives back the code it is stored under. */
  lemma NameForCodeRoundTrip(key: int)
    ensures GetKeyName(key).Some? ==> GetKeyCodeForName(GetKeyName(key).value) == Some(key)
  {
    var m := KeyMap();
    MapFromListSpec(InitializerList());
    var r := GetKeyName(key);
    if r.Some? {
      var i :| 0 <= i < |m| && m[i] == KeyEntry(key, r.value);
      forall a, b | 0 <= a < b < |m| ensures m[a].name != m[b].name {
        assert FirstWithCode(InitializerList(), m[a]);
        assert FirstWithCode(InitializerList(), m[b]);
        var ia :| 0 <= ia < TABLE_SIZE && InitializerList()[ia] == m[a];
        var ib :| 0 <= ib < TABLE_SIZE && InitializerList()[ib] == m[b];
        ListedNamesDistinct(ia, ib);
      }
      FindNameDistinct(m, i);
    }
  }

  /** The 145 listed names are pairwise distinct. */
  lemma ListedNamesDistinct(i: nat, j: nat)
    requires i < TABLE_SIZE && j < TABLE_SIZE
    ensures Listed(i).name == Listed(j).name ==> i == j
  {
    NameSignatureInverse(i);
    NameSignatureInverse(j);
  }

  /** A listed name determines its position in the list. */
  lemma ListedAt(name: string, i: nat)
    requires i < TABLE_SIZE && Listed(i).name == name
    ensures i == IndexOfSignature(NameSignature(name))
  {
    NameSignatureInverse(i);
  }

  /** "Enter" is not a listed name. */
  lemma EnterNotListed(i: nat)
    requires i < TABLE_SIZE
    ensures Listed(i).name != "Enter"
  {
    if Listed(i).name == "Enter" {
      ListedAt("Enter", i);
      assert false;
    }
  }

  /** "Hangul" and "Kanji" are listed once each, right after the pair that shares their code. */
  lemma SharedCodeNamesListed(i: nat)
    requires i < TABLE_SIZE
    ensures Listed(i).name == "Hangul" ==> i == 16
    ensures Listed(i).name == "Kanji" ==> i == 20
  {
    if Listed(i).name == "Hangul" {
      ListedAt("Hangul", i);
      assert IndexOfSignature(NameSignature("Hangul")) == 16;
    }
    if Listed(i).name == "Kanji" {
      ListedAt("Kanji", i);
      assert IndexOfSignature(NameSignature("Kanji")) == 20;
    }
  }

  /** Enter is listed under the name "Return": "Enter" finds nothing, "Return" finds code 13. */
  lemma EnterIsNamedReturn()
    ensures GetKeyName(13) == Some("Return")
    ensures GetKeyCodeForName("Enter") == None
    ensures GetKeyCodeForName("Return") == Some(13)
  {
    assert Listed(9) == KeyEntry(13, "Return");
    FirstByAscendingCodes(9);
    NameForCodeRoundTrip(13);
    var l := InitializerList();
    forall x | FirstWithCode(l, x) ensures x.name != "Enter" {
      var i :| 0 <= i < TABLE_SIZE && l[i] == x;
      EnterNotListed(i);
    }
    GetKeyCodeForNameSpec("Enter");
  }

  /** The number-pad keys 96..105 are named "Keypad+0".."Keypad+9". */
  lemma KeypadNames()
    ensures GetKeyName(96) == Some("Keypad+0") && GetKeyName(97) == Some("Keypad+1")
    ensures GetKeyName(98) == Some("Keypad+2") && GetKeyName(99) == Some("Keypad+3")
    ensures GetKeyName(100) == Some("Keypad+4") && GetKeyName(101) == Some("Keypad+5")
    ensures GetKeyName(102) == Some("Keypad+6") && GetKeyName(103) == Some("Keypad+7")
    ensures GetKeyName(104) == Some("Keypad+8") && GetKeyName(105) == Some("Keypad+9")
  {
    assert Listed(82) == KeyEntry(96, "Keypad+0") && Listed(83) == KeyEntry(97, "Keypad+1");
    assert Listed(84) == KeyEntry(98, "Keypad+2") && Listed(85) == KeyEntry(99, "Keypad+3");
    assert Listed(86) == KeyEntry(100, "Keypad+4") && Listed(87) == KeyEntry(101, "Keypad+5");
    assert Listed(88) == KeyEntry(102, "Keypad+6") && Listed(89) == KeyEntry(103, "Keypad+7");
    assert Listed(90) == KeyEntry(104, "Keypad+8") && Listed(91) == KeyEntry(105, "Keypad+9");
    assert Listed(81).code == 95;
    FirstByAscendingCodes(82); FirstByAscendingCodes(83); FirstByAscendingCodes(84);
    FirstByAscendingCodes(85); FirstByAscendingCodes(86); FirstByAscendingCodes(87);
    FirstByAscendingCodes(88); FirstByAscendingCodes(89); FirstByAscendingCodes(90);
    FirstByAscendingCodes(91);
  }

  /** A pair whose code differs from its predecessor's is named neither "Hangul" nor "Kanji". */
  lemma NewCodeNotShared(i: nat)
    requires i < TABLE_SIZE
    requires i == 0 || Listed(i - 1).code != Listed(i).code
    ensures Listed(i).name != "Hangul" && Listed(i).name != "Kanji"
  {
    if Listed(i).name == "Hangul" || Listed(i).name == "Kanji" {
      SharedCodeNamesListed(i);
      assert false;
    }
  }

  /** No first occurrence of a code in the list is named "Hangul" or "Kanji". */
  lemma SharedCodeNamesShadowed()
    ensures forall x | FirstWithCode(InitializerList(), x) :: x.name != "Hangul" && x.name != "Kanji"
  {
    var l := InitializerList();
    forall x | FirstWithCode(l, x) ensures x.name != "Hangul" && x.name != "Kanji" {
      var i :| 0 <= i < TABLE_SIZE && l[i] == x && forall j :: 0 <= j < i ==> l[j].code != x.code;
      if i > 0 {
        assert l[i - 1].code != l[i].code;
      }
      NewCodeNotShared(i);
    }
  }

  /** Kana and Hangul share code 21: the map keeps Kana, so "Hangul" can never be found. */
  lemma KanaKeptOverHangul()
    ensures GetKeyName(21) == Some("Kana")
    ensures GetKeyCodeForName("Hangul") == None
  {
    assert Listed(14).code == 20 && Listed(15) == KeyEntry(21, "Kana");
    FirstByAscendingCodes(15);
    SharedCodeNamesShadowed();
    GetKeyCodeForNameSpec("Hangul");
  }

  /** Hanja and Kanji share code 25: the map keeps Hanja, so "Kanji" can never be found. */
  lemma HanjaKeptOverKanji()
    ensures GetKeyName(25) == Some("Hanja")
    ensures GetKeyCodeForName("Kanji") == None
  {
    assert Listed(18).code == 24 && Listed(19) == KeyEntry(25, "Hanja");
    FirstByAscendingCodes(19);
    SharedCodeNamesShadowed();
    GetKeyCodeForNameSpec("Kanji");
  }

  /**
   * A pair whose code differs from its predecessor's is the first with its code,
   * so GetKeyName returns its name.
   */
  lemma FirstByAscendingCodes(i: nat)
    requires i < TABLE_SIZE
    requires i == 0 || Listed(i - 1).code != Listed(i).code
    ensures GetKeyName(Listed(i).code) == Some(Listed(i).name)
  {
    var l := InitializerList();
    forall j | 0 <= j < i ensures l[j].code < l[i].code {
      ListedCodesAscendingFrom(j, i);
    }
    assert FirstWithCode(l, Listed(i));
    MapFromListSpec(l);
    var m := KeyMap();
    assert Listed(i) in m;
    var k :| 0 <= k < |m| && m[k] == Listed(i);
    FindInSorted(m, k);
  }

  /** Codes never decrease along the list, and strictly increase into any pair that starts a new code. */
  lemma {:induction false} ListedCodesAscendingFrom(j: nat, i: nat)
    requires j < i < TABLE_SIZE
    requires Listed(i - 1).code != Listed(i).code
    ensures Listed(j).code < Listed(i).code
    decreases i - j
  {
    ListedCodesAscending(i - 1);
    if j < i - 1 {
      ListedCodesNonDecreasing(j, i - 1);
    }
  }

  lemma {:induction false} ListedCodesNonDecreasing(j: nat, i: nat)
    requires j <= i < TABLE_SIZE
    ensures Listed(j).code <= Listed(i).code
    decreases i - j
  {
    if j < i {
      ListedCodesAscending(j);
      ListedCodesNonDecreasing(j + 1, i);
    }
  }

  /** Adjacent codes of the list: ascending, equal only at Kana/Hangul and Hanja/Kanji. */
  lemma ListedCodesAscending(i: nat)
    requires i + 1 < TABLE_SIZE
    ensures Listed(i).code <= Listed(i + 1).code
    ensures Listed(i).code == Listed(i + 1).code <==> i == 15 || i == 19
  {
    if i < 5 { ListedCodesAscending0(i); }
    else if i < 10 { ListedCodesAscending5(i); }
    else if i < 15 { ListedCodesAscending10(i); }
    else if i < 20 { ListedCodesAscending15(i); }
    else if i < 25 { ListedCodesAscending20(i); }
    else if i < 30 { ListedCodesAscending25(i); }
    else if i < 35 { ListedCodesAscending30(i); }
    else if i < 40 { ListedCodesAscending35(i); }
    else if i < 45 { ListedCodesAscending40(i); }
    else if i < 50 { ListedCodesAscending45(i); }
    else if i < 55 { ListedCodesAscending50(i); }
    else if i < 60 { ListedCodesAscending55(i); }
    else if i < 65 { ListedCodesAscending60(i); }
    else if i < 70 { ListedCodesAscending65(i); }
    else if i < 75 { ListedCodesAscending70(i); }
    else if i < 80 { ListedCodesAscending75(i); }
    else if i < 85 { ListedCodesAscending80(i); }
    else if i < 90 { ListedCodesAscending85(i); }
    else if i < 95 { ListedCodesAscending90(i); }
    else if i < 100 { ListedCodesAscending95(i); }
    else if i < 105 { ListedCodesAscending100(i); }
    else if i < 110 { ListedCodesAscending105(i); }
    else if i < 115 { ListedCodesAscending110(i); }
    else if i < 120 { ListedCodesAscending115(i); }
    else if i < 125 { ListedCodesAscending120(i); }
    else if i < 130 { ListedCodesAscending125(i); }
    else if i < 135 { ListedCodesAscending130(i); }
    else if i < 140 { ListedCodesAscending135(i); }
    else { ListedCodesAscending140(i); }
  }

  // ---------------------------------------------------------------------------
  // Proof device for name distinctness: a signature that is injective on the
  // listed names (length, first, last and second character) and its inverse,
  // a balanced decision tree over the 145 signatures.
  // ---------------------------------------------------------------------------

  ghost function NameSignature(s: string): int
  {
    if |s| == 0 then 0
    else |s| * 0x100_0000 + s[0] as int * 0x1_0000 + s[|s| - 1] as int * 0x100 + (if |s| > 1 then s[1] as int else 0)
  }

  ghost function IndexOfSignature(g: int): int
  {
    if g < 0x5537468 then
      if g < 0x3416464 then
        if g < 0x1535300 then
          if g < 0x14A4A00 then
            if g < 0x1454500 then
              if g < 0x1434300 then
                if g < 0x1424200 then
                  52
                else
                  53
              else
                if g < 0x1444400 then
                  54
                else
                  55
            else
              if g < 0x1474700 then
                if g < 0x1464600 then
                  56
                else
                  57
              else
                if g < 0x1484800 then
                  58
                else
                  if g < 0x1494900 then
                    59
                  else
                    60
          else
            if g < 0x14E4E00 then
              if g < 0x14C4C00 then
                if g < 0x14B4B00 then
                  61
                else
                  62
              else
                if g < 0x14D4D00 then
                  63
                else
                  64
            else
              if g < 0x1505000 then
                if g < 0x14F4F00 then
                  65
                else
                  66
              else
                if g < 0x1515100 then
                  67
                else
                  if g < 0x1525200 then
                    68
                  else
                    69
        else
          if g < 0x2463232 then
            if g < 0x1575700 then
              if g < 0x1555500 then
                if g < 0x1545400 then
                  70
                else
                  71
              else
                if g < 0x1565600 then
                  72
                else
                  73
            else
              if g < 0x1595900 then
                if g < 0x1585800 then
                  74
                else
                  75
              else
                if g < 0x15A5A00 then
                  76
                else
                  if g < 0x2463131 then
                    77
                  else
                    98
          else
            if g < 0x2463636 then
              if g < 0x2463434 then
                if g < 0x2463333 then
                  99
                else
                  100
              else
                if g < 0x2463535 then
                  101
                else
                  102
            else
              if g < 0x2463838 then
                if g < 0x2463737 then
                  103
                else
                  104
              else
                if g < 0x2463939 then
                  105
                else
                  if g < 0x2557070 then
                    106
                  else
                    32
      else
        if g < 0x4426B61 then
          if g < 0x3463332 then
            if g < 0x3463131 then
              if g < 0x3463031 then
                if g < 0x345646E then
                  93
                else
                  29
              else
                if g < 0x3463032 then
                  107
                else
                  117
            else
              if g < 0x3463231 then
                if g < 0x3463132 then
                  108
                else
                  118
              else
                if g < 0x3463232 then
                  109
                else
                  if g < 0x3463331 then
                    119
                  else
                    110
          else
            if g < 0x3463631 then
              if g < 0x3463432 then
                if g < 0x3463431 then
                  120
                else
                  111
              else
                if g < 0x3463531 then
                  121
                else
                  112
            else
              if g < 0x3463831 then
                if g < 0x3463731 then
                  113
                else
                  114
              else
                if g < 0x3463931 then
                  115
                else
                  if g < 0x3546261 then
                    116
                  else
                    7
        else
          if g < 0x5466C69 then
            if g < 0x44B6161 then
              if g < 0x448656F then
                if g < 0x4446E6F then
                  6
                else
                  34
              else
                if g < 0x4487065 then
                  30
                else
                  41
            else
              if g < 0x44D7565 then
                if g < 0x44C7465 then
                  15
                else
                  31
              else
                if g < 0x4537074 then
                  12
                else
                  if g < 0x543726C then
                    141
                  else
                    8
          else
            if g < 0x5506561 then
              if g < 0x54A6175 then
                if g < 0x5486161 then
                  18
                else
                  19
              else
                if g < 0x54B6961 then
                  17
                else
                  20
            else
              if g < 0x5527469 then
                if g < 0x5507472 then
                  13
                else
                  36
              else
                if g < 0x5536570 then
                  33
                else
                  if g < 0x553706C then
                    26
                  else
                    81
    else
      if g < 0x84B3665 then
        if g < 0x7456578 then
          if g < 0x649746E then
            if g < 0x6446569 then
              if g < 0x6436C61 then
                if g < 0x6417463 then
                  10
                else
                  24
              else
                if g < 0x6446565 then
                  2
                else
                  40
            else
              if g < 0x647656F then
                if g < 0x6456573 then
                  97
                else
                  21
              else
                if g < 0x6476B6F then
                  144
                else
                  if g < 0x6486C61 then
                    138
                  else
                    16
          else
            if g < 0x6536C63 then
              if g < 0x6526E65 then
                if g < 0x6507061 then
                  39
                else
                  27
              else
                if g < 0x6536865 then
                  9
                else
                  142
            else
              if g < 0x7436C6F then
                if g < 0x6537465 then
                  131
                else
                  35
              else
                if g < 0x743746F then
                  11
                else
                  if g < 0x7446C65 then
                    22
                  else
                    96
        else
          if g < 0x74E3875 then
            if g < 0x74E3375 then
              if g < 0x74E3175 then
                if g < 0x74E3075 then
                  37
                else
                  42
              else
                if g < 0x74E3275 then
                  43
                else
                  44
            else
              if g < 0x74E3575 then
                if g < 0x74E3475 then
                  45
                else
                  46
              else
                if g < 0x74E3675 then
                  47
                else
                  if g < 0x74E3775 then
                    48
                  else
                    49
          else
            if g < 0x84B3165 then
              if g < 0x7526865 then
                if g < 0x74E3975 then
                  50
                else
                  51
              else
                if g < 0x84B3065 then
                  140
                else
                  82
            else
              if g < 0x84B3365 then
                if g < 0x84B3265 then
                  83
                else
                  84
              else
                if g < 0x84B3465 then
                  85
                else
                  if g < 0x84B3565 then
                    86
                  else
                    87
      else
        if g < 0xA4E746F then
          if g < 0x8583142 then
            if g < 0x84C7565 then
              if g < 0x84B3865 then
                if g < 0x84B3765 then
                  88
                else
                  89
              else
                if g < 0x84B3965 then
                  90
                else
                  91
            else
              if g < 0x8506E61 then
                if g < 0x84D7975 then
                  136
                else
                  92
              else
                if g < 0x853746E then
                  28
                else
                  if g < 0x8537475 then
                    38
                  else
                    95
          else
            if g < 0x94C7465 then
              if g < 0x9467361 then
                if g < 0x8583242 then
                  4
                else
                  5
              else
                if g < 0x947646F then
                  143
                else
                  139
            else
              if g < 0x9537265 then
                if g < 0x9527569 then
                  132
                else
                  137
              else
                if g < 0xA4C6E65 then
                  94
                else
                  if g < 0xA4D656F then
                    0
                  else
                    25
        else
          if g < 0xC526C69 then
            if g < 0xB4C6C65 then
              if g < 0xB416E70 then
                if g < 0xA527469 then
                  23
                else
                  133
              else
                if g < 0xB436B61 then
                  80
                else
                  14
            else
              if g < 0xB526E69 then
                if g < 0xB4C7365 then
                  134
                else
                  78
              else
                if g < 0xC4D6E69 then
                  1
                else
                  if g < 0xC4E7061 then
                    3
                  else
                    124
          else
            if g < 0xE4E7561 then
              if g < 0xD4E6B75 then
                if g < 0xC527369 then
                  135
                else
                  79
              else
                if g < 0xE4E6E61 then
                  130
                else
                  if g < 0xE4E7461 then
                    125
                  else
                    126
            else
              if g < 0xF4E7461 then
                if g < 0xE4E7761 then
                  123
                else
                  122
              else
                if g < 0x104E6C61 then
                  127
                else
                  if g < 0x104E7461 then
                    129
                  else
                    128
  }

  lemma NameSignatureInverse(i: nat)
    requires i < TABLE_SIZE
    ensures IndexOfSignature(NameSignature(Listed(i).name)) == i
  {
    if i < 5 { NameSignatureInverse0(i); }
    else if i < 10 { NameSignatureInverse5(i); }
    else if i < 15 { NameSignatureInverse10(i); }
    else if i < 20 { NameSignatureInverse15(i); }
    else if i < 25 { NameSignatureInverse20(i); }
    else if i < 30 { NameSignatureInverse25(i); }
    else if i < 35 { NameSignatureInverse30(i); }
    else if i < 40 { NameSignatureInverse35(i); }
    else if i < 45 { NameSignatureInverse40(i); }
    else if i < 50 { NameSignatureInverse45(i); }
    else if i < 55 { NameSignatureInverse50(i); }
    else if i < 60 { NameSignatureInverse55(i); }
    else if i < 65 { NameSignatureInverse60(i); }
    else if i < 70 { NameSignatureInverse65(i); }
    else if i < 75 { NameSignatureInverse70(i); }
    else if i < 80 { NameSignatureInverse75(i); }
    else if i < 85 { NameSignatureInverse80(i); }
    else if i < 90 { NameSignatureInverse85(i); }
    else if i < 95 { NameSignatureInverse90(i); }
    else if i < 100 { NameSignatureInverse95(i); }
    else if i < 105 { NameSignatureInverse100(i); }
    else if i < 110 { NameSignatureInverse105(i); }
    else if i < 115 { NameSignatureInverse110(i); }
    else if i < 120 { NameSignatureInverse115(i); }
    else if i < 125 { NameSignatureInverse120(i); }
    else if i < 130 { NameSignatureInverse125(i); }
    else if i < 135 { NameSignatureInverse130(i); }
    else if i < 140 { NameSignatureInverse135(i); }
    else { NameSignatureInverse140(i); }
  }

  lemma NameSignatureInverse0(i: nat)
    requires 0 <= i < 5
    ensures IndexOfSignature(NameSignature(Listed(i).name)) == i
  {
    if i == 0 {}
    else if i == 1 {}
    else if i == 2 {}
    else if i == 3 {}
    else if i == 4 {}
  }

  lemma NameSignatureInverse5(i: nat)
    requires 5 <= i < 10
    ensures IndexOfSignature(NameSignature(Listed(i).name)) == i
  {
    if i == 5 {}
    else if i == 6 {}
    else if i == 7 {}
    else if i == 8 {}
    else if i == 9 {}
  }

  lemma NameSignatureInverse10(i: nat)
    requires 10 <= i < 15
    ensures IndexOfSignature(NameSignature(Listed(i).name)) == i
  {
    if i == 10 {}
    else if i == 11 {}
    else if i == 12 {}
    else if i == 13 {}
    else if i == 14 {}
  }

  lemma NameSignatureInverse15(i: nat)
    requires 15 <= i < 20
    ensures IndexOfSignature(NameSignature(Listed(i).name)) == i
  {
    if i == 15 {}
    else if i == 16 {}
    else if i == 17 {}
    else if i == 18 {}
    else if i == 19 {}
  }

  lemma NameSignatureInverse20(i: nat)
    requires 20 <= i < 25
    ensures IndexOfSignature(NameSignature(Listed(i).name)) == i
  {
    if i == 20 {}
    else if i == 21 {}
    else if i == 22 {}
    else if i == 23 {}
    else if i == 24 {}
  }

  lemma NameSignatureInverse25(i: nat)
    requires 25 <= i < 30
    ensures IndexOfSignature(NameSignature(Listed(i).name)) == i
  {
    if i == 25 {}
    else if i == 26 {}
    else if i == 27 {}
    else if i == 28 {}
    else if i == 29 {}
  }

  lemma NameSignatureInverse30(i: nat)
    requires 30 <= i < 35
    ensures IndexOfSignature(NameSignature(Listed(i).name)) == i
  {
    if i == 30 {}
    else if i == 31 {}
    else if i == 32 {}
    else if i == 33 {}
    else if i == 34 {}
  }

  lemma NameSignatureInverse35(i: nat)
    requires 35 <= i < 40
    ensures IndexOfSignature(NameSignature(Listed(i).name)) == i
  {
    if i == 35 {}
    else if i == 36 {}
    else if i == 37 {}
    else if i == 38 {}
    else if i == 39 {}
  }

  lemma NameSignatureInverse40(i: nat)
    requires 40 <= i < 45
    ensures IndexOfSignature(NameSignature(Listed(i).name)) == i
  {
    if i == 40 {}
    else if i == 41 {}
    else if i == 42 {}
    else if i == 43 {}
    else if i == 44 {}
  }

  lemma NameSignatureInverse45(i: nat)
    requires 45 <= i < 50
    ensures IndexOfSignature(NameSignature(Listed(i).name)) == i
  {
    if i == 45 {}
    else if i == 46 {}
    else if i == 47 {}
    else if i == 48 {}
    else if i == 49 {}
  }

  lemma NameSignatureInverse50(i: nat)
    requires 50 <= i < 55
    ensures IndexOfSignature(NameSignature(Listed(i).name)) == i
  {
    if i == 50 {}
    else if i == 51 {}
    else if i == 52 {}
    else if i == 53 {}
    else if i == 54 {}
  }

  lemma NameSignatureInverse55(i: nat)
    requires 55 <= i < 60
    ensures IndexOfSignature(NameSignature(Listed(i).name)) == i
  {
    if i == 55 {}
    else if i == 56 {}
    else if i == 57 {}
    else if i == 58 {}
    else if i == 59 {}
  }

  lemma NameSignatureInverse60(i: nat)
    requires 60 <= i < 65
    ensures IndexOfSignature(NameSignature(Listed(i).name)) == i
  {
    if i == 60 {}
    else if i == 61 {}
    else if i == 62 {}
    else if i == 63 {}
    else if i == 64 {}
  }

  lemma NameSignatureInverse65(i: nat)
    requires 65 <= i < 70
    ensures IndexOfSignature(NameSignature(Listed(i).name)) == i
  {
    if i == 65 {}
    else if i == 66 {}
    else if i == 67 {}
    else if i == 68 {}
    else if i == 69 {}
  }

  lemma NameSignatureInverse70(i: nat)
    requires 70 <= i < 75
    ensures IndexOfSignature(NameSignature(Listed(i).name)) == i
  {
    if i == 70 {}
    else if i == 71 {}
    else if i == 72 {}
    else if i == 73 {}
    else if i == 74 {}
  }

  lemma NameSignatureInverse75(i: nat)
    requires 75 <= i < 80
    ensures IndexOfSignature(NameSignature(Listed(i).name)) == i
  {
    if i == 75 {}
    else if i == 76 {}
    else if i == 77 {}
    else if i == 78 {}
    else if i == 79 {}
  }

  lemma NameSignatureInverse80(i: nat)
    requires 80 <= i < 85
    ensures IndexOfSignature(NameSignature(Listed(i).name)) == i
  {
    if i == 80 {}
    else if i == 81 {}
    else if i == 82 {}
    else if i == 83 {}
    else if i == 84 {}
  }

  lemma NameSignatureInverse85(i: nat)
    requires 85 <= i < 90
    ensures IndexOfSignature(NameSignature(Listed(i).name)) == i
  {
    if i == 85 {}
    else if i == 86 {}
    else if i == 87 {}
    else if i == 88 {}
    else if i == 89 {}
  }

  lemma NameSignatureInverse90(i: nat)
    requires 90 <= i < 95
    ensures IndexOfSignature(NameSignature(Listed(i).name)) == i
  {
    if i == 90 {}
    else if i == 91 {}
    else if i == 92 {}
    else if i == 93 {}
    else if i == 94 {}
  }

  lemma NameSignatureInverse95(i: nat)
    requires 95 <= i < 100
    ensures IndexOfSignature(NameSignature(Listed(i).name)) == i
  {
    if i == 95 {}
    else if i == 96 {}
    else if i == 97 {}
    else if i == 98 {}
    else if i == 99 {}
  }

  lemma NameSignatureInverse100(i: nat)
    requires 100 <= i < 105
    ensures IndexOfSignature(NameSignature(Listed(i).name)) == i
  {
    if i == 100 {}
    else if i == 101 {}
    else if i == 102 {}
    else if i == 103 {}
    else if i == 104 {}
  }

  lemma NameSignatureInverse105(i: nat)
    requires 105 <= i < 110
    ensures IndexOfSignature(NameSignature(Listed(i).name)) == i
  {
    if i == 105 {}
    else if i == 106 {}
    else if i == 107 {}
    else if i == 108 {}
    else if i == 109 {}
  }

  lemma NameSignatureInverse110(i: nat)
    requires 110 <= i < 115
    ensures IndexOfSignature(NameSignature(Listed(i).name)) == i
  {
    if i == 110 {}
    else if i == 111 {}
    else if i == 112 {}
    else if i == 113 {}
    else if i == 114 {}
  }

  lemma NameSignatureInverse115(i: nat)
    requires 115 <= i < 120
    ensures IndexOfSignature(NameSignature(Listed(i).name)) == i
  {
    if i == 115 {}
    else if i == 116 {}
    else if i == 117 {}
    else if i == 118 {}
    else if i == 119 {}
  }

  lemma NameSignatureInverse120(i: nat)
    requires 120 <= i < 125
    ensures IndexOfSignature(NameSignature(Listed(i).name)) == i
  {
    if i == 120 {}
    else if i == 121 {}
    else if i == 122 {}
    else if i == 123 {}
    else if i == 124 {}
  }

  lemma NameSignatureInverse125(i: nat)
    requires 125 <= i < 130
    ensures IndexOfSignature(NameSignature(Listed(i).name)) == i
  {
    if i == 125 {}
    else if i == 126 {}
    else if i == 127 {}
    else if i == 128 {}
    else if i == 129 {}
  }

  lemma NameSignatureInverse130(i: nat)
    requires 130 <= i < 135
    ensures IndexOfSignature(NameSignature(Listed(i).name)) == i
  {
    if i == 130 {}
    else if i == 131 {}
    else if i == 132 {}
    else if i == 133 {}
    else if i == 134 {}
  }

  lemma NameSignatureInverse135(i: nat)
    requires 135 <= i < 140
    ensures IndexOfSignature(NameSignature(Listed(i).name)) == i
  {
    if i == 135 {}
    else if i == 136 {}
    else if i == 137 {}
    else if i == 138 {}
    else if i == 139 {}
  }

  lemma NameSignatureInverse140(i: nat)
    requires 140 <= i < 145
    ensures IndexOfSignature(NameSignature(Listed(i).name)) == i
  {
    if i == 140 {}
    else if i == 141 {}
    else if i == 142 {}
    else if i == 143 {}
    else if i == 144 {}
  }

  lemma ListedCodesAscending0(i: nat)
    requires 0 <= i < 5
    ensures Listed(i).code <= Listed(i + 1).code
    ensures Listed(i).code == Listed(i + 1).code <==> i == 15 || i == 19
  {
    if i == 0 {}
    else if i == 1 {}
    else if i == 2 {}
    else if i == 3 {}
    else if i == 4 {}
  }

  lemma ListedCodesAscending5(i: nat)
    requires 5 <= i < 10
    ensures Listed(i).code <= Listed(i + 1).code
    ensures Listed(i).code == Listed(i + 1).code <==> i == 15 || i == 19
  {
    if i == 5 {}
    else if i == 6 {}
    else if i == 7 {}
    else if i == 8 {}
    else if i == 9 {}
  }

  lemma ListedCodesAscending10(i: nat)
    requires 10 <= i < 15
    ensures Listed(i).code <= Listed(i + 1).code
    ensures Listed(i).code == Listed(i + 1).code <==> i == 15 || i == 19
  {
    if i == 10 {}
    else if i == 11 {}
    else if i == 12 {}
    else if i == 13 {}
    else if i == 14 {}
  }

  lemma ListedCodesAscending15(i: nat)
    requires 15 <= i < 20
    ensures Listed(i).code <= Listed(i + 1).code
    ensures Listed(i).code == Listed(i + 1).code <==> i == 15 || i == 19
  {
    if i == 15 {}
    else if i == 16 {}
    else if i == 17 {}
    else if i == 18 {}
    else if i == 19 {}
  }

  lemma ListedCodesAscending20(i: nat)
    requires 20 <= i < 25
    ensures Listed(i).code <= Listed(i + 1).code
    ensures Listed(i).code == Listed(i + 1).code <==> i == 15 || i == 19
  {
    if i == 20 {}
    else if i == 21 {}
    else if i == 22 {}
    else if i == 23 {}
    else if i == 24 {}
  }

  lemma ListedCodesAscending25(i: nat)
    requires 25 <= i < 30
    ensures Listed(i).code <= Listed(i + 1).code
    ensures Listed(i).code == Listed(i + 1).code <==> i == 15 || i == 19
  {
    if i == 25 {}
    else if i == 26 {}
    else if i == 27 {}
    else if i == 28 {}
    else if i == 29 {}
  }

  lemma ListedCodesAscending30(i: nat)
    requires 30 <= i < 35
    ensures Listed(i).code <= Listed(i + 1).code
    ensures Listed(i).code == Listed(i + 1).code <==> i == 15 || i == 19
  {
    if i == 30 {}
    else if i == 31 {}
    else if i == 32 {}
    else if i == 33 {}
    else if i == 34 {}
  }

  lemma ListedCodesAscending35(i: nat)
    requires 35 <= i < 40
    ensures Listed(i).code <= Listed(i + 1).code
    ensures Listed(i).code == Listed(i + 1).code <==> i == 15 || i == 19
  {
    if i == 35 {}
    else if i == 36 {}
    else if i == 37 {}
    else if i == 38 {}
    else if i == 39 {}
  }

  lemma ListedCodesAscending40(i: nat)
    requires 40 <= i < 45
    ensures Listed(i).code <= Listed(i + 1).code
    ensures Listed(i).code == Listed(i + 1).code <==> i == 15 || i == 19
  {
    if i == 40 {}
    else if i == 41 {}
    else if i == 42 {}
    else if i == 43 {}
    else if i == 44 {}
  }

  lemma ListedCodesAscending45(i: nat)
    requires 45 <= i < 50
    ensures Listed(i).code <= Listed(i + 1).code
    ensures Listed(i).code == Listed(i + 1).code <==> i == 15 || i == 19
  {
    if i == 45 {}
    else if i == 46 {}
    else if i == 47 {}
    else if i == 48 {}
    else if i == 49 {}
  }

  lemma ListedCodesAscending50(i: nat)
    requires 50 <= i < 55
    ensures Listed(i).code <= Listed(i + 1).code
    ensures Listed(i).code == Listed(i + 1).code <==> i == 15 || i == 19
  {
    if i == 50 {}
    else if i == 51 {}
    else if i == 52 {}
    else if i == 53 {}
    else if i == 54 {}
  }

  lemma ListedCodesAscending55(i: nat)
    requires 55 <= i < 60
    ensures Listed(i).code <= Listed(i + 1).code
    ensures Listed(i).code == Listed(i + 1).code <==> i == 15 || i == 19
  {
    if i == 55 {}
    else if i == 56 {}
    else if i == 57 {}
    else if i == 58 {}
    else if i == 59 {}
  }

  lemma ListedCodesAscending60(i: nat)
    requires 60 <= i < 65
    ensures Listed(i).code <= Listed(i + 1).code
    ensures Listed(i).code == Listed(i + 1).code <==> i == 15 || i == 19
  {
    if i == 60 {}
    else if i == 61 {}
    else if i == 62 {}
    else if i == 63 {}
    else if i == 64 {}
  }

  lemma ListedCodesAscending65(i: nat)
    requires 65 <= i < 70
    ensures Listed(i).code <= Listed(i + 1).code
    ensures Listed(i).code == Listed(i + 1).code <==> i == 15 || i == 19
  {
    if i == 65 {}
    else if i == 66 {}
    else if i == 67 {}
    else if i == 68 {}
    else if i == 69 {}
  }

  lemma ListedCodesAscending70(i: nat)
    requires 70 <= i < 75
    ensures Listed(i).code <= Listed(i + 1).code
    ensures Listed(i).code == Listed(i + 1).code <==> i == 15 || i == 19
  {
    if i == 70 {}
    else if i == 71 {}
    else if i == 72 {}
    else if i == 73 {}
    else if i == 74 {}
  }

  lemma ListedCodesAscending75(i: nat)
    requires 75 <= i < 80
    ensures Listed(i).code <= Listed(i + 1).code
    ensures Listed(i).code == Listed(i + 1).code <==> i == 15 || i == 19
  {
    if i == 75 {}
    else if i == 76 {}
    else if i == 77 {}
    else if i == 78 {}
    else if i == 79 {}
  }

  lemma ListedCodesAscending80(i: nat)
    requires 80 <= i < 85
    ensures Listed(i).code <= Listed(i + 1).code
    ensures Listed(i).code == Listed(i + 1).code <==> i == 15 || i == 19
  {
    if i == 80 {}
    else if i == 81 {}
    else if i == 82 {}
    else if i == 83 {}
    else if i == 84 {}
  }

  lemma ListedCodesAscending85(i: nat)
    requires 85 <= i < 90
    ensures Listed(i).code <= Listed(i + 1).code
    ensures Listed(i).code == Listed(i + 1).code <==> i == 15 || i == 19
  {
    if i == 85 {}
    else if i == 86 {}
    else if i == 87 {}
    else if i == 88 {}
    else if i == 89 {}
  }

  lemma ListedCodesAscending90(i: nat)
    requires 90 <= i < 95
    ensures Listed(i).code <= Listed(i + 1).code
    ensures Listed(i).code == Listed(i + 1).code <==> i == 15 || i == 19
  {
    if i == 90 {}
    else if i == 91 {}
    else if i == 92 {}
    else if i == 93 {}
    else if i == 94 {}
  }

  lemma ListedCodesAscending95(i: nat)
    requires 95 <= i < 100
    ensures Listed(i).code <= Listed(i + 1).code
    ensures Listed(i).code == Listed(i + 1).code <==> i == 15 || i == 19
  {
    if i == 95 {}
    else if i == 96 {}
    else if i == 97 {}
    else if i == 98 {}
    else if i == 99 {}
  }

  lemma ListedCodesAscending100(i: nat)
    requires 100 <= i < 105
    ensures Listed(i).code <= Listed(i + 1).code
    ensures Listed(i).code == Listed(i + 1).code <==> i == 15 || i == 19
  {
    if i == 100 {}
    else if i == 101 {}
    else if i == 102 {}
    else if i == 103 {}
    else if i == 104 {}
  }

  lemma ListedCodesAscending105(i: nat)
    requires 105 <= i < 110
    ensures Listed(i).code <= Listed(i + 1).code
    ensures Listed(i).code == Listed(i + 1).code <==> i == 15 || i == 19
  {
    if i == 105 {}
    else if i == 106 {}
    else if i == 107 {}
    else if i == 108 {}
    else if i == 109 {}
  }

  lemma ListedCodesAscending110(i: nat)
    requires 110 <= i < 115
    ensures Listed(i).code <= Listed(i + 1).code
    ensures Listed(i).code == Listed(i + 1).code <==> i == 15 || i == 19
  {
    if i == 110 {}
    else if i == 111 {}
    else if i == 112 {}
    else if i == 113 {}
    else if i == 114 {}
  }

  lemma ListedCodesAscending115(i: nat)
    requires 115 <= i < 120
    ensures Listed(i).code <= Listed(i + 1).code
    ensures Listed(i).code == Listed(i + 1).code <==> i == 15 || i == 19
  {
    if i == 115 {}
    else if i == 116 {}
    else if i == 117 {}
    else if i == 118 {}
    else if i == 119 {}
  }

  lemma ListedCodesAscending120(i: nat)
    requires 120 <= i < 125
    ensures Listed(i).code <= Listed(i + 1).code
    ensures Listed(i).code == Listed(i + 1).code <==> i == 15 || i == 19
  {
    if i == 120 {}
    else if i == 121 {}
    else if i == 122 {}
    else if i == 123 {}
    else if i == 124 {}
  }

  lemma ListedCodesAscending125(i: nat)
    requires 125 <= i < 130
    ensures Listed(i).code <= Listed(i + 1).code
    ensures Listed(i).code == Listed(i + 1).code <==> i == 15 || i == 19
  {
    if i == 125 {}
    else if i == 126 {}
    else if i == 127 {}
    else if i == 128 {}
    else if i == 129 {}
  }

  lemma ListedCodesAscending130(i: nat)
    requires 130 <= i < 135
    ensures Listed(i).code <= Listed(i + 1).code
    ensures Listed(i).code == Listed(i + 1).code <==> i == 15 || i == 19
  {
    if i == 130 {}
    else if i == 131 {}
    else if i == 132 {}
    else if i == 133 {}
    else if i == 134 {}
  }

  lemma ListedCodesAscending135(i: nat)
    requires 135 <= i < 140
    ensures Listed(i).code <= Listed(i + 1).code
    ensures Listed(i).code == Listed(i + 1).code <==> i == 15 || i == 19
  {
    if i == 135 {}
    else if i == 136 {}
    else if i == 137 {}
    else if i == 138 {}
    else if i == 139 {}
  }

  lemma ListedCodesAscending140(i: nat)
    requires 140 <= i < 144
    ensures Listed(i).code <= Listed(i + 1).code
    ensures Listed(i).code == Listed(i + 1).code <==> i == 15 || i == 19
  {
    if i == 140 {}
    else if i == 141 {}
    else if i == 142 {}
    else if i == 143 {}
  }
}
