/**
 * The two buttons of the model selector, `ModelSelect(bot, current_model)`
 * (bot.py:107-128). Each button's custom id is the model it selects; the
 * button of the current model is labelled "[SELECTED] ..." and green, any
 * other is grey.
 */
module Selector {

  const ChatModel: string := "deepseek-chat"
  const ReasonerModel: string := "deepseek-r1"
  const SelectedPrefix: string := "[SELECTED] "

  datatype Style = Green | Grey

  datatype Button = Button(text: string, style: Style, customId: string)

  function RenderButton(current: string, id: string, caption: string): Button
  {
    if current == id then Button(SelectedPrefix + caption, Green, id)
    else Button(caption, Grey, id)
  }

  /** The label starts with the "[SELECTED] " marker. */
  predicate Marked(b: Button)
  {
    |SelectedPrefix| <= |b.text| && b.text[..|SelectedPrefix|] == SelectedPrefix
  }

  /** Shown as the chosen model: marked and green. */
  predicate Highlighted(b: Button)
  {
    Marked(b) && b.style == Green
  }

  /** Shown as not chosen: unmarked and grey. */
  predicate Plain(b: Button)
  {
    !Marked(b) && b.style == Grey
  }

  /**
   * The selector for `current`: the chat button, then the reasoning button.
   * A button is highlighted exactly when its id is `current`, and every
   * button is either highlighted or plain, never a mix of the two.
   */
  function RenderSelector(current: string): (v: seq<Button>)
    ensures |v| == 2
    ensures v[0].customId == ChatModel && v[1].customId == ReasonerModel
    ensures forall i :: 0 <= i < |v| ==> (Highlighted(v[i]) <==> v[i].customId == current)
    ensures forall i :: 0 <= i < |v| ==> Highlighted(v[i]) || Plain(v[i])
  {
    var chat := "DeepSeek Chat (Normal)";
    var reasoner := "DeepSeek R1 (Reasoning)";
    assert (SelectedPrefix + chat)[..|SelectedPrefix|] == SelectedPrefix;
    assert (SelectedPrefix + reasoner)[..|SelectedPrefix|] == SelectedPrefix;
    assert chat[0] != SelectedPrefix[0] && reasoner[0] != SelectedPrefix[0];
    [RenderButton(current, ChatModel, chat), RenderButton(current, ReasonerModel, reasoner)]
  }

  /** Exactly one button is highlighted for the two known models, none for any other. */
  lemma HighlightCount(current: string)
    ensures current == ChatModel ==>
      Highlighted(RenderSelector(current)[0]) && Plain(RenderSelector(current)[1])
    ensures current == ReasonerModel ==>
      Plain(RenderSelector(current)[0]) && Highlighted(RenderSelector(current)[1])
    ensures current != ChatModel && current != ReasonerModel ==>
      Plain(RenderSelector(current)[0]) && Plain(RenderSelector(current)[1])
  {
  }
}
