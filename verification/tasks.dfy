/** The task list: an ordered sequence of tasks, each a text and a completed
    flag, rewritten to one key of the browser's storage after every change. */
module Tasks {

  datatype Todo = Todo(text: string, completed: bool)

  /** The characters `String.prototype.trim` strips: the white space and line
      terminator code points of ECMAScript. */
  predicate IsWhitespace(c: char)
  {
    var n := c as int;
    n == 0x09 || n == 0x0A || n == 0x0B || n == 0x0C || n == 0x0D || n == 0x20
    || n == 0xA0 || n == 0x1680 || (0x2000 <= n <= 0x200A) || n == 0x2028
    || n == 0x2029 || n == 0x202F || n == 0x205F || n == 0x3000 || n == 0xFEFF
  }

  /** Space, tab, the line breaks, the no-break space and the byte order mark
      are white space; no visible ASCII character is. */
  lemma WhitespaceClasses(c: char)
    ensures IsWhitespace(' ') && IsWhitespace('\t') && IsWhitespace('\n') && IsWhitespace('\r')
    ensures IsWhitespace('\U{00A0}') && IsWhitespace('\U{FEFF}') && IsWhitespace('\U{2028}')
    ensures '!' <= c <= '~' ==> !IsWhitespace(c)
  {
  }

  predicate AllWhitespace(s: string)
  {
    forall i :: 0 <= i < |s| ==> IsWhitespace(s[i])
  }

  /** No white space at either end, and not empty. */
  predicate Trimmed(s: string)
  {
    s != [] && !IsWhitespace(s[0]) && !IsWhitespace(s[|s| - 1])
  }

  function TrimStart(s: string): (r: string)
    ensures |r| <= |s| && r == s[|s| - |r|..]
    ensures AllWhitespace(s[..|s| - |r|])
    ensures r != [] ==> !IsWhitespace(r[0])
  {
    if s != [] && IsWhitespace(s[0]) then TrimStart(s[1..]) else s
  }

  function TrimEnd(s: string): (r: string)
    ensures |r| <= |s| && r == s[..|r|]
    ensures AllWhitespace(s[|r|..])
    ensures r != [] ==> !IsWhitespace(r[|r| - 1])
  {
    if s != [] && IsWhitespace(s[|s| - 1]) then TrimEnd(s[..|s| - 1]) else s
  }

  /** `String.prototype.trim`: the text between the white space at either end. */
  function Trim(s: string): (r: string)
    ensures r == [] || Trimmed(r)
    ensures exists i :: 0 <= i <= |s| - |r| && r == s[i..i + |r|]
              && AllWhitespace(s[..i]) && AllWhitespace(s[i + |r|..])
  {
    var front := TrimStart(s);
    var r := TrimEnd(front);
    ghost var i := |s| - |front|;
    assert r == s[i..i + |r|];
    assert s[i + |r|..] == front[|r|..];
    r
  }

  /** Trimming leaves nothing exactly when the text is all white space. */
  lemma TrimEmptyIff(s: string)
    ensures Trim(s) == [] <==> AllWhitespace(s)
  {
  }

  /** Trimming an already trimmed text changes nothing. */
  lemma TrimIdempotent(s: string)
    ensures Trim(Trim(s)) == Trim(s)
  {
  }

  /** Every task has a trimmed, non-empty text: what the add button produces. */
  predicate WellFormed(list: seq<Todo>)
  {
    forall i :: 0 <= i < |list| ==> Trimmed(list[i].text)
  }

  /** `addTodo`: the trimmed text becomes a new incomplete task at the end of the
      list; a text that trims to nothing adds nothing. */
  function Add(list: seq<Todo>, input: string): (r: seq<Todo>)
    ensures r == list <==> AllWhitespace(input)
    ensures r != list ==> r == list + [Todo(Trim(input), false)]
    ensures WellFormed(list) ==> WellFormed(r)
  {
    TrimEmptyIff(input);
    var text := Trim(input);
    if text != [] then list + [Todo(text, false)] else list
  }

  /** The checkbox of task `i`: flips its flag and nothing else. */
  function Toggle(list: seq<Todo>, i: nat): (r: seq<Todo>)
    requires i < |list|
    ensures |r| == |list|
    ensures r[i].text == list[i].text && r[i].completed == !list[i].completed
    ensures forall j :: 0 <= j < |list| && j != i ==> r[j] == list[j]
    ensures WellFormed(list) ==> WellFormed(r)
  {
    list[i := Todo(list[i].text, !list[i].completed)]
  }

  /** The delete button of task `i`: removes it and keeps the others in order. */
  function Delete(list: seq<Todo>, i: nat): (r: seq<Todo>)
    requires i < |list|
    ensures |r| == |list| - 1
    ensures forall j :: 0 <= j < i ==> r[j] == list[j]
    ensures forall j :: i <= j < |r| ==> r[j] == list[j + 1]
    ensures multiset(r) + multiset{list[i]} == multiset(list)
    ensures WellFormed(list) ==> WellFormed(r)
  {
    assert list == list[..i] + [list[i]] + list[i + 1..];
    list[..i] + list[i + 1..]
  }

  /** The storage key the list lives under. */
  const StorageKey := "zenfocus_todos"

  /** What `loadTodos` finds: the list stored under the key, or nothing. */
  function Load(slots: map<string, seq<Todo>>): (list: seq<Todo>)
  {
    if StorageKey in slots then slots[StorageKey] else []
  }

  /** Loading after saving gives back the saved list, in the same order. */
  lemma LoadAfterSave(slots: map<string, seq<Todo>>, list: seq<Todo>)
    ensures Load(slots[StorageKey := list]) == list
  {
  }

  /** The browser's key-value storage, with the list as the value it holds. */
  class Store {
    var slots: map<string, seq<Todo>>

    constructor (slots: map<string, seq<Todo>>)
      ensures this.slots == slots
    {
      this.slots := slots;
    }
  }
}
