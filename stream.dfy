/** `stream_data`: the words of a text, each followed by one space, in the
    order they are handed to the chat widget. The pause between words is left
    out. */
module Stream {
  import opened Text

  function StreamData(text: string): (chunks: seq<string>)
    ensures |chunks| == Count(text, ' ') + 1
    ensures Concat(chunks) == text + " "
    ensures forall i :: 0 <= i < |chunks| ==>
              |chunks[i]| >= 1 && chunks[i][|chunks[i]| - 1] == ' ' && ' ' !in chunks[i][..|chunks[i]| - 1]
  {
    var words := Split(text, ' ');
    var chunks := seq(|words|, i requires 0 <= i < |words| => words[i] + " ");
    JoinSplit(text, ' ');
    ConcatSuffixed(words, " ");
    assert forall i :: 0 <= i < |chunks| ==> chunks[i][..|chunks[i]| - 1] == words[i];
    chunks
  }

  /** The words recovered from the chunks (each without its final space)
      joined by single spaces are the text itself. */
  lemma {:induction false} StreamDataWords(text: string)
    ensures var chunks := StreamData(text);
            Join(seq(|chunks|, i requires 0 <= i < |chunks| => chunks[i][..|chunks[i]| - 1]), " ") == text
  {
    var chunks := StreamData(text);
    var words := Split(text, ' ');
    var stripped := seq(|chunks|, i requires 0 <= i < |chunks| => chunks[i][..|chunks[i]| - 1]);
    assert stripped == words;
    JoinSplit(text, ' ');
  }
}
