/**
 * Prompt construction at generation time (src/generate.py). Loading the
 * model, tokenizing and sampling are not part of this model.
 */
module Generate {
  import opened Text
  import Training

  /** `build_prompt`: the instruction line, the input line when the stripped input is not empty, and the response cue. */
  function BuildPrompt(instruction: string, inputText: string): string
  {
    var parts := ["Instruction: " + PyStrip(instruction)]
                 + (if PyStrip(inputText) != "" then ["Input: " + PyStrip(inputText)] else [])
                 + ["Response:"];
    PyStrip(Training.JoinLines(parts))
  }

  /** The prompt given to the model is the one its training examples were built with, from the same instruction and input. */
  lemma BuildPromptMatchesTraining(instruction: string, inputText: string)
    ensures BuildPrompt(instruction, inputText) == Training.PromptText(PyStrip(instruction), PyStrip(inputText))
  {
    assert Training.PromptParts(PyStrip(instruction), PyStrip(inputText))
        == ["Instruction: " + PyStrip(instruction)]
           + (if PyStrip(inputText) != "" then ["Input: " + PyStrip(inputText)] else [])
           + ["Response:"];
  }

  /**
   * The prompt's lines: "Instruction: " and the stripped instruction first,
   * "Input: " and the stripped input only when that is not empty, and
   * "Response:" last.
   */
  lemma BuildPromptLines(instruction: string, inputText: string)
    ensures var i, x := PyStrip(instruction), PyStrip(inputText);
            BuildPrompt(instruction, inputText)
            == "Instruction: " + i + (if x != "" then "\nInput: " + x else "") + "\nResponse:"
    ensures var p := BuildPrompt(instruction, inputText);
            && |p| >= 23 + |PyStrip(instruction)|
            && p[..13] == "Instruction: "
            && p[13..13 + |PyStrip(instruction)|] == PyStrip(instruction)
            && p[|p| - 10..] == "\nResponse:"
    ensures BuildPrompt(instruction, inputText) == BuildPrompt(instruction, "") <==> PyStrip(inputText) == ""
  {
    var i, x := PyStrip(instruction), PyStrip(inputText);
    BuildPromptMatchesTraining(instruction, inputText);
    assert BuildPrompt(instruction, inputText)
        == "Instruction: " + i + (if x != "" then "\nInput: " + x else "") + "\nResponse:" by {
      Training.PromptTextShape(i, x);
    }
    assert BuildPrompt(instruction, inputText) == BuildPrompt(instruction, "") <==> x == "" by {
      BuildPromptMatchesTraining(instruction, "");
      Training.PromptInputLine(i, x);
      assert PyStrip("") == "" by {
        TrimUnchanged("", IsPyWhitespace);
      }
    }
    Training.PromptFrame(i, x);
  }

  /** A training example read from a record is prompted exactly as the same instruction and input are at generation time. */
  lemma TrainingExampleMatchesGeneration(line: nat, data: Training.JsonObject)
    requires Training.FromRecord(line, data).Kept?
    ensures Training.FromRecord(line, data).example.promptText
            == BuildPrompt(Training.InstructionField(data).s, Training.InputField(data).s)
  {
    BuildPromptMatchesTraining(Training.InstructionField(data).s, Training.InputField(data).s);
  }
}
