/**
 * The two change-stream filters of the socket controller: a MongoDB change
 * event becomes a content-free signal only when it is an update whose updated
 * field names include the watched array field, either whole (`participants`)
 * or one indexed element of it (`participants.3`).
 */
module ChangeStream {
  import opened Wrappers
  import opened Rooms

  const PARTICIPANTS: string := "participants"
  const INVITATIONS: string := "invitations"

  predicate IsDigit(c: char)
  {
    '0' <= c <= '9'
  }

  /**
   * The regular expressions the filters use, as data: literal text, `\d`
   * (an ASCII digit `[0-9]`, as in JavaScript), `+`, `?`
   * and concatenation.
   */
  datatype Regex = Lit(text: string) | Digit | Plus(r: Regex) | Opt(r: Regex) | Cat(a: Regex, b: Regex)

  /** `s` matches `re` as a whole, which is what the anchors `^` and `$` ask for. */
  ghost predicate Matches(re: Regex, s: string)
    decreases re, |s|
  {
    match re
    case Lit(t) => s == t
    case Digit => |s| == 1 && IsDigit(s[0])
    case Opt(r) => s == [] || Matches(r, s)
    case Cat(a, b) => exists i :: 0 <= i <= |s| && Matches(a, s[..i]) && Matches(b, s[i..])
    case Plus(r) => Matches(r, s) || exists i :: 0 < i < |s| && Matches(r, s[..i]) && Matches(Plus(r), s[i..])
  }

  /** `/^participants(?:\.\d+)?$/` and `/^invitations(?:\.\d+)?$/`, with the field name as a parameter. */
  function FieldPattern(field: string): Regex
  {
    Cat(Lit(field), Opt(Cat(Lit("."), Plus(Digit))))
  }

  predicate AllDigits(s: string)
  {
    forall i :: 0 <= i < |s| ==> IsDigit(s[i])
  }

  /** The filter's test on one key, read off the pattern: the field itself, or the field, a dot and one or more digits. */
  predicate FieldMatches(field: string, key: string)
  {
    key == field
    || (|key| > |field| + 1 && key[..|field|] == field && key[|field|] == '.' && AllDigits(key[|field| + 1..]))
  }

  lemma {:induction false} DigitsMatchPlus(s: string)
    ensures Matches(Plus(Digit), s) <==> |s| > 0 && AllDigits(s)
    decreases |s|
  {
    if |s| > 1 {
      DigitsMatchPlus(s[1..]);
      if |s| > 0 && AllDigits(s) {
        assert Matches(Digit, s[..1]);
        assert AllDigits(s[1..]);
        assert Matches(Plus(Digit), s[1..]);
      }
      if Matches(Plus(Digit), s) {
        assert !Matches(Digit, s);
        var i :| 0 < i < |s| && Matches(Digit, s[..i]) && Matches(Plus(Digit), s[i..]);
        assert i == 1;
        assert AllDigits(s[1..]);
        assert IsDigit(s[0]);
        assert forall j :: 1 <= j < |s| ==> s[j] == s[1..][j - 1];
      }
    } else if |s| == 1 {
      assert Matches(Plus(Digit), s) <==> Matches(Digit, s);
    } else {
      assert !Matches(Digit, s);
    }
  }

  /** The optional suffix `\.\d+`: a dot followed by one or more digits. */
  lemma DotDigits(t: string)
    ensures Matches(Cat(Lit("."), Plus(Digit)), t) <==> |t| > 1 && t[0] == '.' && AllDigits(t[1..])
  {
    if t != [] {
      DigitsMatchPlus(t[1..]);
    }
    if |t| > 1 && t[0] == '.' && AllDigits(t[1..]) {
      assert t[..1] == ".";
      assert Matches(Lit("."), t[..1]);
    }
    if Matches(Cat(Lit("."), Plus(Digit)), t) {
      var j :| 0 <= j <= |t| && Matches(Lit("."), t[..j]) && Matches(Plus(Digit), t[j..]);
      assert t[..j] == ".";
      assert j == 1;
    }
  }

  /** Every key the direct test accepts matches the regular expression. */
  lemma FieldMatchesSound(field: string, key: string)
    requires FieldMatches(field, key)
    ensures Matches(FieldPattern(field), key)
  {
    var n := |field|;
    var tail := Cat(Lit("."), Plus(Digit));
    if key != field {
      DotDigits(key[n..]);
      assert key[n..][1..] == key[n + 1..];
      assert Matches(tail, key[n..]);
    }
    assert key[..n] == field;
    assert Matches(Lit(field), key[..n]) && Matches(Opt(tail), key[n..]);
  }

  /** Every key matching the regular expression passes the direct test. */
  lemma FieldMatchesComplete(field: string, key: string)
    requires Matches(FieldPattern(field), key)
    ensures FieldMatches(field, key)
  {
    var n := |field|;
    var tail := Cat(Lit("."), Plus(Digit));
    var i :| 0 <= i <= |key| && Matches(Lit(field), key[..i]) && Matches(Opt(tail), key[i..]);
    assert i == n;
    var rest := key[n..];
    assert key == field + rest;
    if rest != [] {
      DotDigits(rest);
      assert key[n] == rest[0];
      assert key[n + 1..] == rest[1..];
    }
  }

  /** The direct test agrees with the regular expression on every key, in both directions. */
  lemma FieldMatchesRegex(field: string, key: string)
    ensures FieldMatches(field, key) <==> Matches(FieldPattern(field), key)
  {
    if FieldMatches(field, key) {
      FieldMatchesSound(field, key);
    }
    if Matches(FieldPattern(field), key) {
      FieldMatchesComplete(field, key);
    }
  }

  /** `Object.keys(updatedFields).some(key => regex.test(key))`. */
  function AnyFieldMatches(field: string, keys: seq<string>): (b: bool)
    ensures b <==> exists k :: k in keys && Matches(FieldPattern(field), k)
  {
    if keys == [] then false
    else
      FieldMatchesRegex(field, keys[0]);
      assert forall k :: k in keys <==> k == keys[0] || k in keys[1..];
      FieldMatches(field, keys[0]) || AnyFieldMatches(field, keys[1..])
  }

  /** The part of a change event the filters read. `updatedFields` holds the keys of the object, `None` when it is absent. */
  datatype UpdateDescription = UpdateDescription(updatedFields: Option<seq<string>>)

  /**
   * A change event: its `operationType`, its `updateDescription` (`None` when
   * absent) and `documentKey` as the string `toString()` gives for it.
   */
  datatype ChangeEvent = ChangeEvent(operationType: string, updateDescription: Option<UpdateDescription>, documentKey: Name)

  /** `updatedFields || {}`: the updated keys, none when the object is absent. */
  function UpdatedKeys(d: UpdateDescription): seq<string>
  {
    match d.updatedFields
    case None => []
    case Some(keys) => keys
  }

  /**
   * The room (or user self-room) a change event is signalled to, if any. A
   * missing `updateDescription` on an update throws inside the handler's `try`
   * and is logged, so it signals nothing either.
   */
  function ChangeTarget(change: ChangeEvent, field: string): (t: Option<Name>)
    ensures t.Some? <==>
      && change.operationType == "update"
      && change.updateDescription.Some?
      && exists k :: k in UpdatedKeys(change.updateDescription.value) && Matches(FieldPattern(field), k)
    ensures t.Some? ==> t.value == change.documentKey
  {
    if change.operationType != "update" then None
    else if change.updateDescription.None? then None
    else if !AnyFieldMatches(field, UpdatedKeys(change.updateDescription.value)) then None
    else Some(change.documentKey)
  }

  /** Keys that pass: the bare field and indexed elements of it. */
  lemma FieldExamplesAccepted()
    ensures Matches(FieldPattern(PARTICIPANTS), "participants")
    ensures Matches(FieldPattern(PARTICIPANTS), "participants.2")
    ensures Matches(FieldPattern(INVITATIONS), "invitations.10")
  {
    FieldMatchesRegex(PARTICIPANTS, "participants");
    FieldMatchesRegex(PARTICIPANTS, "participants.2");
    FieldMatchesRegex(INVITATIONS, "invitations.10");
  }

  /** Keys that do not pass: a bare dot and a nested path below an element. */
  lemma FieldExamplesRejectedPaths()
    ensures !Matches(FieldPattern(PARTICIPANTS), "participants.")
    ensures !Matches(FieldPattern(PARTICIPANTS), "participants.2.name")
  {
    FieldMatchesRegex(PARTICIPANTS, "participants.");
    FieldMatchesRegex(PARTICIPANTS, "participants.2.name");
    assert !AllDigits("2.name") by { assert !IsDigit("2.name"[1]); }
  }

  /** Keys that do not pass: a longer name and another field. */
  lemma FieldExamplesRejectedNames()
    ensures !Matches(FieldPattern(PARTICIPANTS), "participantsX")
    ensures !Matches(FieldPattern(PARTICIPANTS), "title")
  {
    FieldMatchesRegex(PARTICIPANTS, "participantsX");
    FieldMatchesRegex(PARTICIPANTS, "title");
  }

  /** An update of `participants.2` of room `r` signals `r`; an update of `title` or an insert signals nothing. */
  lemma ChangeTargetExamples(r: Name)
    ensures ChangeTarget(ChangeEvent("update", Some(UpdateDescription(Some(["participants.2"]))), r), PARTICIPANTS) == Some(r)
    ensures ChangeTarget(ChangeEvent("update", Some(UpdateDescription(Some(["title"]))), r), PARTICIPANTS) == None
    ensures ChangeTarget(ChangeEvent("insert", Some(UpdateDescription(Some(["participants"]))), r), PARTICIPANTS) == None
  {
  }
}
