/**
 * The shape of the narration script the session-generation endpoint composes:
 * the plant's script, a lead, the instructions joined with ". ", and a closing.
 * The layout lemmas hold for any fill of the four pieces.
 */
module ScriptTemplate {
  import opened Text

  /** The separator `characteristicInstructions` joins the instructions with. */
  const InstructionSeparator := ". "

  /**
   * The template literal `fullScript` with its four pieces: the plant's
   * script, the lead, the joined instructions and the closing.
   */
  function Template(script: string, lead: string, instructions: string, closing: string): string
  {
    script + lead + instructions + closing
  }

  /**
   * The frame of the composed script: the plant's script first, then the lead
   * ("Instrucciones adicionales: " in `FullScript`), then the joined
   * instructions, and the closing (the instructions' final "." and the closing
   * sentence) at the very end.
   */
  lemma TemplateFrame(script: string, lead: string, instructions: string, closing: string)
    ensures var full := Template(script, lead, instructions, closing);
            var start := |script| + |lead|;
            && |full| == start + |instructions| + |closing|
            && full[..|script|] == script
            && full[|script|..start] == lead
            && full[start..start + |instructions|] == instructions
            && full[start + |instructions|..] == closing
  {
    var pre := script + lead;
    var full := Template(script, lead, instructions, closing);
    assert full == pre + (instructions + closing);
    SliceAfterPrefix(pre, instructions + closing, 0, |instructions|);
    SliceAfterPrefix(pre, instructions + closing, |instructions|, |instructions| + |closing|);
    assert full[..|pre|] == pre;
    assert full[..|script|] == pre[..|script|];
    assert full[|script|..|pre|] == pre[|script|..];
  }

  /** A piece found at `o` in the instructions stands `|script| + |lead|` further on in the template. */
  lemma TemplatePieceAt(script: string, lead: string, body: string, closing: string, o: nat, piece: string)
    requires o + |piece| <= |body| && body[o..o + |piece|] == piece
    ensures var full := Template(script, lead, body, closing);
            var at := |script| + |lead| + o;
            && at + |piece| <= |full|
            && full[at..at + |piece|] == piece
  {
    TemplateFrame(script, lead, body, closing);
    SubSlice(Template(script, lead, body, closing), |script| + |lead|, body, o, piece);
  }
}
