/**
 * The cache key of one invocation: the wrapped method's name, the receiver's
 * text (when there is a receiver) and the text of every argument, in order.
 * Objects enter the key only through their `ToString` text, so the receiver and
 * the arguments are given here as those texts; `None` is a null reference.
 * Generic type arguments of the call are not an input: calls that differ only
 * in them get the same key.
 */
module CacheKeys {
  import opened Wrappers

  /** The text one argument contributes: its own text, or "null" for a null argument. */
  function ArgumentText(a: Option<string>): string
  {
    match a
    case Some(text) => text
    case None => "null"
  }

  /** The argument list as it appears in a key: every argument's text followed by ", ". */
  function ArgumentsText(args: seq<Option<string>>): string
  {
    if args == [] then ""
    else ArgumentsText(args[..|args| - 1]) + ArgumentText(args[|args| - 1]) + ", "
  }

  /** The receiver's part of a key: its text followed by "; ", or nothing for a static call. */
  function ReceiverText(instance: Option<string>): string
  {
    match instance
    case Some(text) => text + "; "
    case None => ""
  }

  /** A call with neither a receiver nor arguments is keyed by the bare method name. */
  predicate IsFastPath(instance: Option<string>, args: seq<Option<string>>)
  {
    instance.None? && |args| == 0
  }

  /**
   * The key as a value. Outside the fast path it is the name, an opening
   * parenthesis, the receiver part and the argument list; the parenthesis is
   * never closed.
   */
  function CacheKey(methodName: string, instance: Option<string>, args: seq<Option<string>>): (r: string)
    ensures |r| >= |methodName| && r[..|methodName|] == methodName
    ensures !IsFastPath(instance, args) ==> |r| > |methodName| && r[|methodName|] == '('
  {
    if IsFastPath(instance, args) then methodName
    else methodName + "(" + ReceiverText(instance) + ArgumentsText(args)
  }

  /** Builds the key by appending to a buffer, one argument per loop iteration. */
  method GetCacheKey(methodName: string, instance: Option<string>, arguments: seq<Option<string>>)
    returns (key: string)
    ensures key == CacheKey(methodName, instance, arguments)
  {
    if instance.None? && |arguments| == 0 {
      return methodName;
    }
    var builder := methodName;
    builder := builder + "(";
    if instance.Some? {
      builder := builder + instance.value;
      builder := builder + "; ";
    }
    for i := 0 to |arguments|
      invariant builder == methodName + "(" + ReceiverText(instance) + ArgumentsText(arguments[..i])
    {
      assert arguments[..i + 1][..i] == arguments[..i];
      builder := builder + ArgumentText(arguments[i]);
      builder := builder + ", ";
    }
    assert arguments[..|arguments|] == arguments;
    key := builder;
  }

  /** Keys of argument lists compose: the text of `a + b` is the text of `a` followed by that of `b`. */
  lemma {:induction false} ArgumentsTextAppend(a: seq<Option<string>>, b: seq<Option<string>>)
    ensures ArgumentsText(a + b) == ArgumentsText(a) + ArgumentsText(b)
  {
    if b == [] {
      assert a + b == a;
    } else {
      var b' := b[..|b| - 1];
      assert (a + b)[..|a + b| - 1] == a + b';
      assert (a + b)[|a + b| - 1] == b[|b| - 1];
      ArgumentsTextAppend(a, b');
    }
  }

  /** Every argument contributes its own text plus the two characters of ", ", so at least two characters. */
  lemma {:induction false} ArgumentsTextLength(args: seq<Option<string>>)
    ensures |ArgumentsText(args)| >= 2 * |args|
    ensures args != [] ==> ArgumentsText(args)[|ArgumentsText(args)| - 2..] == ", "
  {
    if args != [] {
      ArgumentsTextLength(args[..|args| - 1]);
    }
  }

  /**
   * Arguments appear in positional order: argument `k` comes after the first
   * `k` arguments' text and is followed by ", " and the rest.
   */
  lemma {:induction false} ArgumentAt(args: seq<Option<string>>, k: nat)
    requires k < |args|
    ensures ArgumentsText(args)
         == ArgumentsText(args[..k]) + ArgumentText(args[k]) + ", " + ArgumentsText(args[k + 1..])
  {
    var prefix, rest := args[..k + 1], args[k + 1..];
    assert args == prefix + rest;
    ArgumentsTextAppend(prefix, rest);
    assert prefix[..|prefix| - 1] == args[..k];
    assert prefix[|prefix| - 1] == args[k];
    assert ArgumentsText(prefix) == ArgumentsText(args[..k]) + ArgumentText(args[k]) + ", ";
  }

  /** The key is the method name exactly when the call takes the fast path. */
  lemma KeyIsNameIffFastPath(methodName: string, instance: Option<string>, args: seq<Option<string>>)
    ensures CacheKey(methodName, instance, args) == methodName <==> IsFastPath(instance, args)
  {
    if !IsFastPath(instance, args) {
      assert |CacheKey(methodName, instance, args)| > |methodName|;
    }
  }

  /**
   * Outside the fast path the key starts with the name and "(", and it ends in
   * ", " (after an argument) or "; " (after a receiver with no arguments):
   * never in a closing parenthesis.
   */
  lemma KeyNeverClosed(methodName: string, instance: Option<string>, args: seq<Option<string>>)
    requires !IsFastPath(instance, args)
    ensures var key := CacheKey(methodName, instance, args);
      |key| >= |methodName| + 3 &&
      key[..|methodName| + 1] == methodName + "(" &&
      (args != [] ==> key[|key| - 2..] == ", ") &&
      (args == [] ==> key[|key| - 2..] == "; ") &&
      key[|key| - 1] != ')'
  {
    ArgumentsTextLength(args);
    var key := CacheKey(methodName, instance, args);
    assert key == (methodName + "(") + (ReceiverText(instance) + ArgumentsText(args));
    if args == [] {
      assert key == methodName + "(" + instance.value + "; ";
    }
  }

  /**
   * Key stability under more arguments: once a key has left the fast path,
   * appending arguments appends their text and keeps the earlier key as a prefix.
   */
  lemma {:induction false} KeyExtends(methodName: string, instance: Option<string>, a: seq<Option<string>>, b: seq<Option<string>>)
    requires !IsFastPath(instance, a)
    ensures CacheKey(methodName, instance, a + b) == CacheKey(methodName, instance, a) + ArgumentsText(b)
  {
    ArgumentsTextAppend(a, b);
    var head := methodName + "(" + ReceiverText(instance);
    assert !IsFastPath(instance, a + b);
    assert CacheKey(methodName, instance, a + b) == head + ArgumentsText(a + b);
    assert CacheKey(methodName, instance, a) == head + ArgumentsText(a);
  }

  /** A null argument is written as the text "null". */
  lemma NullArgumentRendering(methodName: string)
    ensures CacheKey(methodName, None, [None]) == methodName + "(null, "
  {
    var args: seq<Option<string>> := [None];
    assert args[..0] == [];
  }

  /** The key of `Catalog.GetPrice("SKU1")` on a static method. */
  lemma CatalogExample()
    ensures CacheKey("Catalog.GetPrice", None, [Some("SKU1")]) == "Catalog.GetPrice(SKU1, "
  {
    assert [Some("SKU1")][..0] == [];
  }

  /**
   * Keys are built from texts alone, so an argument whose text contains ", "
   * collides with two arguments: the caller must keep texts unambiguous.
   */
  lemma TextsCanCollide()
    ensures CacheKey("M", None, [Some("a, b")]) == CacheKey("M", None, [Some("a"), Some("b")])
  {
    assert [Some("a, b")][..0] == [];
    assert [Some("a"), Some("b")][..1] == [Some("a")];
    assert [Some("a")][..0] == [];
  }
}
