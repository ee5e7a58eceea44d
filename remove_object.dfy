/** The object-removal form: its one-object-name check and its submit handler.

    The check is `object.split(" ").length > 1`, done in the browser only; the
    server's object-removal handler does not repeat it. */
module RemoveObject {
  import opened Js
  import AiControllers

  const Space := ' '
  const OneNameOnly := "Please enter only one object name"
  const RemoveObjectRoute := "/api/ai/remove-image-object"

  /** `s.split(sep)` for a one-character separator: the pieces between the
      separators, empty ones included. */
  function Split(s: string, sep: char): (parts: seq<string>)
    ensures |parts| >= 1
  {
    if s == [] then [""]
    else
      assert s == [s[0]] + s[1..];
      var rest := Split(s[1..], sep);
      if s[0] == sep then [""] + rest
      else [[s[0]] + rest[0]] + rest[1..]
  }

  /** One piece comes back exactly when the separator does not occur. */
  lemma {:induction false} SplitOnePiece(s: string, sep: char)
    ensures |Split(s, sep)| == 1 <==> sep !in s
  {
    if s != [] {
      SplitOnePiece(s[1..], sep);
      assert s == [s[0]] + s[1..];
    }
  }

  /** No piece contains the separator. */
  lemma {:induction false} SplitPiecesClean(s: string, sep: char)
    ensures forall i :: 0 <= i < |Split(s, sep)| ==> sep !in Split(s, sep)[i]
  {
    if s != [] {
      SplitPiecesClean(s[1..], sep);
      var rest := Split(s[1..], sep);
      var parts := Split(s, sep);
      if s[0] == sep {
        assert forall i :: 1 <= i < |parts| ==> parts[i] == rest[i - 1];
      } else {
        assert forall i :: 1 <= i < |parts| ==> parts[i] == rest[i];
        assert parts[0] == [s[0]] + rest[0];
      }
    }
  }

  /** `parts.join(sep)`, the inverse of `Split`. */
  function Join(parts: seq<string>, sep: char): string
    requires |parts| >= 1
  {
    if |parts| == 1 then parts[0] else parts[0] + [sep] + Join(parts[1..], sep)
  }

  /** Joining after an empty first piece puts a separator in front. */
  lemma JoinEmptyFirst(parts: seq<string>, sep: char)
    requires |parts| >= 1
    ensures Join([""] + parts, sep) == [sep] + Join(parts, sep)
  {
  }

  /** Joining after extending the first piece extends the result. */
  lemma JoinExtendFirst(c: char, parts: seq<string>, sep: char)
    requires |parts| >= 1
    ensures Join([[c] + parts[0]] + parts[1..], sep) == [c] + Join(parts, sep)
  {
  }

  /** Splitting loses nothing: joining the pieces gives the string back. */
  lemma {:induction false} JoinSplit(s: string, sep: char)
    ensures Join(Split(s, sep), sep) == s
  {
    if s != [] {
      JoinSplit(s[1..], sep);
      if s[0] == sep {
        JoinEmptyFirst(Split(s[1..], sep), sep);
      } else {
        JoinExtendFirst(s[0], Split(s[1..], sep), sep);
      }
      assert s == [s[0]] + s[1..];
    }
  }

  /** The form's check passes (`split(" ").length > 1` is false) exactly when the
      text has no space at all: two words, but also a leading, trailing or
      doubled space, are refused. */
  function NamesOneObject(name: string): (ok: bool)
    ensures ok <==> Space !in name
  {
    SplitOnePiece(name, Space);
    !(|Split(name, Space)| > 1)
  }

  lemma StraySpacesRefused(word: string)
    ensures !NamesOneObject(" " + word)
    ensures !NamesOneObject(word + " ")
    ensures !NamesOneObject(word + "  " + word)
    ensures !NamesOneObject("red car")
  {
  }

  /** A notification shown by the form: `toast`, `toast.success`, `toast.error`. */
  datatype Toast = Notice(notice: string) | Succeeded(text: Option<string>) | Errored(text: Option<string>)

  /** The multipart body posted to the object-removal route. */
  datatype Post = Post(route: string, image: Field, objectName: string)

  /** `data.content`: the reply's `content` field, `undefined` when absent. */
  function ContentOf(reply: AiControllers.Response): Field {
    if reply.payload.Some? && reply.payload.value.key == "content" then Some(reply.payload.value.value) else None
  }

  /** The component's state: the chosen file, the object text, the spinner flag,
      the processed image URL, and the toasts shown so far. */
  class Form {
    var input: Field
    var objectName: string
    var loading: bool
    var content: Field
    var toasts: seq<Toast>

    constructor ()
      ensures input == Some("") && objectName == "" && !loading && content == Some("") && toasts == []
    {
      input := Some("");
      objectName := "";
      loading := false;
      content := Some("");
      toasts := [];
    }

    /** `onSubmitHandler`. `reply` is what the POST (and the token fetch before it)
        yields if it is sent: the server's JSON, or an error. The early return on
        a refused name skips the final `setLoading(false)`. */
    method OnSubmit(reply: Outcome<AiControllers.Response>) returns (sent: Option<Post>)
      modifies this
      ensures input == old(input) && objectName == old(objectName)
      ensures !NamesOneObject(objectName) ==>
                sent == None && loading && content == old(content)
                && toasts == old(toasts) + [Notice(OneNameOnly)]
      ensures NamesOneObject(objectName) ==>
                sent == Some(Post(RemoveObjectRoute, input, objectName)) && !loading
      ensures NamesOneObject(objectName) && reply.Returned? && reply.value.success ==>
                content == ContentOf(reply.value) && toasts == old(toasts) + [Succeeded(reply.value.message)]
      ensures NamesOneObject(objectName) && reply.Returned? && !reply.value.success ==>
                content == old(content) && toasts == old(toasts) + [Errored(reply.value.message)]
      ensures NamesOneObject(objectName) && reply.Threw? ==>
                content == old(content) && toasts == old(toasts) + [Errored(Some(reply.error))]
    {
      loading := true;
      if |Split(objectName, Space)| > 1 {
        toasts := toasts + [Notice(OneNameOnly)];
        sent := None;
        return;
      }
      sent := Some(Post(RemoveObjectRoute, input, objectName));
      if reply.Threw? {
        toasts := toasts + [Errored(Some(reply.error))];
      } else if reply.value.success {
        toasts := toasts + [Succeeded(reply.value.message)];
        content := ContentOf(reply.value);
      } else {
        toasts := toasts + [Errored(reply.value.message)];
      }
      loading := false;
    }
  }
}
