/** The message shape the three chat panels share (assessment, systems coach,
    tutor): a role, a text and, in the assessment only, an attached image. */
module Conversation {
  import opened Wrappers

  datatype Role = User | Model

  datatype Message = Message(role: Role, text: string, image: Option<string>)

  /** A message without an image. */
  function Said(role: Role, text: string): Message
  {
    Message(role, text, None)
  }

  /** `messages.filter(m => m.role === 'user').map(m => m.text)`. */
  function UserTexts(ms: seq<Message>): (r: seq<string>)
    ensures |r| <= |ms|
  {
    if ms == [] then [] else (if ms[0].role == User then [ms[0].text] else []) + UserTexts(ms[1..])
  }

  /** A message added at the end contributes its text at the end when it is the
      user's and nothing when it is the model's. */
  lemma {:induction false} UserTextsAppend(ms: seq<Message>, m: Message)
    ensures UserTexts(ms + [m]) == UserTexts(ms) + (if m.role == User then [m.text] else [])
  {
    if ms != [] {
      assert (ms + [m])[1..] == ms[1..] + [m];
      UserTextsAppend(ms[1..], m);
    }
  }

  /** The user texts of a transcript are exactly the texts of its user messages, in
      transcript order. */
  lemma {:induction false} UserTextsAreUserMessages(ms: seq<Message>)
    ensures forall t :: t in UserTexts(ms) <==> exists i :: 0 <= i < |ms| && ms[i].role == User && ms[i].text == t
  {
    if ms != [] {
      UserTextsAreUserMessages(ms[1..]);
      forall t ensures t in UserTexts(ms) <==> exists i :: 0 <= i < |ms| && ms[i].role == User && ms[i].text == t {
        if t in UserTexts(ms[1..]) {
          var i :| 0 <= i < |ms[1..]| && ms[1..][i].role == User && ms[1..][i].text == t;
          assert ms[i + 1] == ms[1..][i];
        }
        if exists i :: 0 <= i < |ms| && ms[i].role == User && ms[i].text == t {
          var i :| 0 <= i < |ms| && ms[i].role == User && ms[i].text == t;
          if i > 0 {
            assert ms[1..][i - 1] == ms[i];
          }
        }
      }
    }
  }
}
