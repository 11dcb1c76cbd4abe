/** The navigation bar's pure parts (src/components/layout/Navbar.tsx):
    the avatar initials, the class-name joiner `cn`, and which links the
    menus show. */
module Navbar {
  import opened Wrappers
  import opened Seqs
  import opened Text
  import opened Types
  import opened AuthSession

  /** `.map((n) => n[0]).join('')`: the first character of each segment;
      an empty segment gives `undefined`, which joins as nothing. */
  function FirstChars(words: seq<string>): string
    decreases |words|
  {
    if words == [] then []
    else (if words[0] == [] then [] else [words[0][0]]) + FirstChars(words[1..])
  }

  /** `getInitials`: the upper-cased first characters of the words, in
      order; runs of spaces and leading or trailing spaces add nothing. */
  function Initials(name: string): (r: string)
    ensures r == UpperStr(WordStarts(name, true))
  {
    FirstCharsSplit(name, true);
    UpperStr(FirstChars(Split(name, ' ')))
  }

  /** An independent reading of the same thing: the characters of `s` that
      are not spaces and either open the string (when `atStart`) or follow
      a space. */
  function WordStarts(s: string, atStart: bool): string
    decreases |s|
  {
    if s == [] then []
    else (if s[0] != ' ' && atStart then [s[0]] else []) + WordStarts(s[1..], s[0] == ' ')
  }

  lemma {:induction false} FirstCharsSplit(s: string, atStart: bool)
    ensures WordStarts(s, atStart) ==
            if atStart then FirstChars(Split(s, ' ')) else FirstChars(Split(s, ' ')[1..])
    decreases |s|
  {
    if s != [] {
      FirstCharsSplit(s[1..], s[0] == ' ');
      var rest := Split(s[1..], ' ');
      if s[0] == ' ' {
        assert Split(s, ' ') == [[]] + rest;
        assert (Split(s, ' '))[1..] == rest;
      } else {
        var r := Split(s, ' ');
        assert r == [[s[0]] + rest[0]] + rest[1..];
        assert r[1..] == rest[1..];
      }
    }
  }

  /** For a name written as non-empty words separated by single spaces,
      the initials are the words' upper-cased first letters. */
  lemma {:induction false} InitialsOfWords(words: seq<string>)
    requires |words| >= 1
    requires forall i :: 0 <= i < |words| ==> words[i] != [] && ' ' !in words[i]
    ensures |Initials(Join(words, " "))| == |words|
    ensures forall i :: 0 <= i < |words| ==> Initials(Join(words, " "))[i] == Upper(words[i][0])
  {
    SplitJoin(words, ' ');
    FirstCharsOfWords(words);
  }

  lemma {:induction false} FirstCharsOfWords(words: seq<string>)
    requires forall i :: 0 <= i < |words| ==> words[i] != []
    ensures |FirstChars(words)| == |words|
    ensures forall i :: 0 <= i < |words| ==> FirstChars(words)[i] == words[i][0]
    decreases |words|
  {
    if words != [] {
      FirstCharsOfWords(words[1..]);
    }
  }

  /** The avatar's fallback: the initials, or 'U' for an empty name. */
  function AvatarText(user: User): (r: string)
    ensures user.fullName == [] ==> r == "U"
    ensures user.fullName != [] && user.fullName[0] != ' ' ==> r != [] && r[0] == Upper(user.fullName[0])
  {
    if user.fullName == [] then "U" else Initials(user.fullName)
  }

  /** A `cn` argument: a class string, or `None` for the `false`, `null`
      and `undefined` that conditional arguments produce. */
  type ClassArg = Option<string>

  /** The truthy arguments, in order: `None` and the empty string are falsy. */
  function Truthy(args: seq<ClassArg>): (r: seq<string>)
    ensures |r| <= |args|
    ensures forall i :: 0 <= i < |r| ==> r[i] != [] && Some(r[i]) in args
    ensures forall i :: 0 <= i < |args| && args[i].Some? && args[i].value != [] ==> args[i].value in r
    decreases |args|
  {
    if args == [] then []
    else if args[0].Some? && args[0].value != [] then [args[0].value] + Truthy(args[1..])
    else Truthy(args[1..])
  }

  /** `cn` treats its arguments in order: the arguments of a concatenation
      contribute in turn, so nothing is reordered, merged or dropped. */
  lemma {:induction false} TruthyAppend(a: seq<ClassArg>, b: seq<ClassArg>)
    ensures Truthy(a + b) == Truthy(a) + Truthy(b)
    decreases |a|
  {
    if a != [] {
      assert (a + b)[1..] == a[1..] + b;
      TruthyAppend(a[1..], b);
    } else {
      assert a + b == b;
    }
  }

  /** One argument contributes itself when truthy and nothing otherwise;
      with `TruthyAppend` this fixes `Truthy` of every argument list. */
  lemma TruthyOne(x: ClassArg)
    ensures Truthy([x]) == if x.Some? && x.value != [] then [x.value] else []
  {
    assert [x][1..] == [];
  }

  /** `cn(...classes)`: the truthy arguments joined by single spaces. */
  function Cn(args: seq<ClassArg>): (r: string)
    ensures r == [] <==> Truthy(args) == []
  {
    Join(Truthy(args), " ")
  }

  /** With no truthy argument the result is empty; when every argument is
      a single class name, splitting the result on spaces recovers the
      truthy arguments in their order. */
  lemma CnRoundTrip(args: seq<ClassArg>)
    ensures Truthy(args) == [] ==> Cn(args) == []
    ensures Truthy(args) != [] &&
            (forall i :: 0 <= i < |args| && args[i].Some? ==> ' ' !in args[i].value) ==>
              Split(Cn(args), ' ') == Truthy(args)
  {
    var t := Truthy(args);
    if t != [] && (forall i :: 0 <= i < |args| && args[i].Some? ==> ' ' !in args[i].value) {
      forall i | 0 <= i < |t| ensures ' ' !in t[i] {
        var k :| 0 <= k < |args| && args[k] == Some(t[i]);
      }
      SplitJoin(t, ' ');
    }
  }

  /** The menu entries, desktop and mobile alike (the desktop shows the
      last two in the account dropdown): application pages for a signed-in
      user, with the admin page for the admin account; the public pages
      and the sign-in pages for a visitor. */
  function MenuLinks(user: Option<User>): (r: seq<string>)
    ensures "/login" in r <==> "/dashboard" !in r
    ensures "/admin" in r ==> user.Some?
  {
    if user.Some? then
      ["/dashboard", "/invoices", "/customers"]
      + (if IsAdminUser(user) then ["/admin"] else [])
      + ["/profile", "/settings"]
    else ["/features", "/pricing", "/contact", "/login", "/register"]
  }

  /** Signed-in links appear exactly when someone is signed in, the admin
      link exactly for the admin account, and the sign-in links exactly for
      a visitor. */
  lemma MenuLinksCases(user: Option<User>)
    ensures "/dashboard" in MenuLinks(user) <==> user.Some?
    ensures "/invoices" in MenuLinks(user) <==> user.Some?
    ensures "/customers" in MenuLinks(user) <==> user.Some?
    ensures "/admin" in MenuLinks(user) <==> user.Some? && user.value.email == ADMIN_EMAIL
    ensures "/login" in MenuLinks(user) <==> user.None?
    ensures "/register" in MenuLinks(user) <==> user.None?
  {
  }
}
