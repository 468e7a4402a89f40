/**
 * The emotion chat panel (components/emotion-chat.tsx): its message log,
 * the send guard and the one-recommendation-per-emotion flag. Each
 * assistant call is split at its `await`: a method that starts it and one
 * that takes its reply.
 */
module Chat {
  import opened Wrappers
  import opened Text

  const SendError := "Unable to send message. Please check your API configuration."
  const RecommendationError := "Unable to get recommendation. Please check your API configuration."

  datatype Sender = User | Ai

  /** A message of the log; its id and timestamp are not modelled. */
  datatype Message = Message(content: string, sender: Sender)

  /** The send guard: an input is sent exactly when it holds a character that is not whitespace. */
  predicate Sendable(input: string): (b: bool)
    ensures b <==> !AllSpace(input)
  {
    TrimEmptyIffAllSpace(input);
    Trim(input) != []
  }

  class EmotionChat {
    /** The props. */
    var currentEmotion: Option<string>
    var isOpen: bool
    var messages: seq<Message>
    var inputMessage: string
    var isLoading: bool
    var hasShownRecommendation: bool
    var error: Option<string>

    constructor(currentEmotion: Option<string>, isOpen: bool)
      ensures this.currentEmotion == currentEmotion && this.isOpen == isOpen
      ensures messages == [] && inputMessage == "" && !isLoading && !hasShownRecommendation && error == None
    {
      this.currentEmotion, this.isOpen := currentEmotion, isOpen;
      messages, inputMessage, isLoading, hasShownRecommendation, error := [], "", false, false, None;
    }

    method SetInput(s: string)
      modifies this
      ensures inputMessage == s && messages == old(messages) && isLoading == old(isLoading)
      ensures error == old(error) && hasShownRecommendation == old(hasShownRecommendation)
      ensures currentEmotion == old(currentEmotion) && isOpen == old(isOpen)
    {
      inputMessage := s;
    }

    /**
     * `handleSendMessage` up to its call: a whitespace-only input or a
     * send while loading changes nothing; otherwise the untrimmed input is
     * appended as one user message, the input cleared, loading started and
     * the error cleared, and the text sent is returned.
     */
    method BeginSend() returns (sent: Option<string>)
      modifies this
      ensures !Sendable(old(inputMessage)) || old(isLoading) ==>
        sent == None && messages == old(messages) && inputMessage == old(inputMessage)
        && isLoading == old(isLoading) && error == old(error)
      ensures Sendable(old(inputMessage)) && !old(isLoading) ==>
        sent == Some(old(inputMessage)) && messages == old(messages) + [Message(old(inputMessage), User)]
        && inputMessage == "" && isLoading && error == None
      ensures hasShownRecommendation == old(hasShownRecommendation)
      ensures currentEmotion == old(currentEmotion) && isOpen == old(isOpen)
    {
      if !Sendable(inputMessage) || isLoading {
        return None;
      }
      sent := Some(inputMessage);
      messages := messages + [Message(inputMessage, User)];
      inputMessage := "";
      isLoading := true;
      error := None;
    }

    /** The assistant answered (`reply` is its text) or failed (None); loading ends. */
    method SendSettled(reply: Option<string>)
      modifies this
      ensures reply.Some? ==> messages == old(messages) + [Message(reply.value, Ai)] && error == old(error)
      ensures reply.None? ==> messages == old(messages) && error == Some(SendError)
      ensures !isLoading && inputMessage == old(inputMessage)
      ensures hasShownRecommendation == old(hasShownRecommendation)
      ensures currentEmotion == old(currentEmotion) && isOpen == old(isOpen)
    {
      if reply.Some? {
        messages := messages + [Message(reply.value, Ai)];
      } else {
        error := Some(SendError);
      }
      isLoading := false;
    }

    /** `handleKeyPress`: Enter without Shift sends; any other key does nothing. */
    method KeyPress(key: string, shift: bool) returns (sent: Option<string>)
      modifies this
      ensures key != "Enter" || shift ==>
        sent == None && messages == old(messages) && inputMessage == old(inputMessage)
        && isLoading == old(isLoading) && error == old(error)
      ensures key == "Enter" && !shift ==>
        (sent.Some? <==> Sendable(old(inputMessage)) && !old(isLoading))
      ensures sent.Some? ==> sent.value == old(inputMessage) && messages == old(messages) + [Message(old(inputMessage), User)]
      ensures old(messages) <= messages
      ensures hasShownRecommendation == old(hasShownRecommendation)
      ensures currentEmotion == old(currentEmotion) && isOpen == old(isOpen)
    {
      sent := None;
      if key == "Enter" && !shift {
        sent := BeginSend();
      }
    }

    /** The recommendation effect's condition. */
    predicate WantsRecommendation()
      reads this
    {
      currentEmotion.Some? && currentEmotion.value != "" && !hasShownRecommendation && isOpen
    }

    /**
     * The recommendation effect: with a non-empty emotion, the panel open
     * and no recommendation shown yet, it requests one for the emotion
     * (returned), starting loading and clearing the error, and sets the
     * flag. Otherwise it changes nothing.
     */
    method RecommendationEffect() returns (requested: Option<string>)
      modifies this
      ensures old(WantsRecommendation()) ==>
        requested == currentEmotion && hasShownRecommendation && isLoading && error == None
      ensures !old(WantsRecommendation()) ==>
        requested == None && hasShownRecommendation == old(hasShownRecommendation)
        && isLoading == old(isLoading) && error == old(error)
      ensures messages == old(messages) && inputMessage == old(inputMessage)
      ensures currentEmotion == old(currentEmotion) && isOpen == old(isOpen)
    {
      requested := None;
      if WantsRecommendation() {
        requested := currentEmotion;
        isLoading := true;
        error := None;
        hasShownRecommendation := true;
      }
    }

    /** The recommendation arrived (appended as an assistant message) or failed; loading ends. */
    method RecommendationSettled(reply: Option<string>)
      modifies this
      ensures reply.Some? ==> messages == old(messages) + [Message(reply.value, Ai)] && error == old(error)
      ensures reply.None? ==> messages == old(messages) && error == Some(RecommendationError)
      ensures !isLoading && inputMessage == old(inputMessage)
      ensures hasShownRecommendation == old(hasShownRecommendation)
      ensures currentEmotion == old(currentEmotion) && isOpen == old(isOpen)
    {
      if reply.Some? {
        messages := messages + [Message(reply.value, Ai)];
      } else {
        error := Some(RecommendationError);
      }
      isLoading := false;
    }

    /** A new `currentEmotion` prop: the reset effect clears the flag, so the next recommendation effect may ask again. */
    method EmotionChanged(e: Option<string>)
      modifies this
      ensures currentEmotion == e && !hasShownRecommendation
      ensures messages == old(messages) && inputMessage == old(inputMessage)
      ensures isLoading == old(isLoading) && error == old(error) && isOpen == old(isOpen)
    {
      currentEmotion := e;
      hasShownRecommendation := false;
    }

    /** A new `isOpen` prop. */
    method OpenChanged(open: bool)
      modifies this
      ensures isOpen == open && currentEmotion == old(currentEmotion)
      ensures messages == old(messages) && inputMessage == old(inputMessage)
      ensures isLoading == old(isLoading) && error == old(error)
      ensures hasShownRecommendation == old(hasShownRecommendation)
    {
      isOpen := open;
    }

    /**
     * The first render's effects, in declaration order: the recommendation
     * effect and then the reset effect. A recommendation is requested when
     * the panel opens with an emotion, yet the flag ends cleared, because
     * the reset runs after the effect that set it.
     */
    method Mount() returns (requested: Option<string>)
      requires !hasShownRecommendation
      modifies this
      ensures requested.Some? <==> currentEmotion.Some? && currentEmotion.value != "" && isOpen
      ensures requested.Some? ==> requested == currentEmotion && isLoading && error == None
      ensures requested.None? ==> isLoading == old(isLoading) && error == old(error)
      ensures !hasShownRecommendation
      ensures messages == old(messages) && inputMessage == old(inputMessage)
      ensures currentEmotion == old(currentEmotion) && isOpen == old(isOpen)
    {
      requested := RecommendationEffect();
      EmotionChanged(currentEmotion);
    }
  }

  /** A full exchange: a sendable input ends as a user message followed by the reply, with loading over. */
  method Exchange(chat: EmotionChat, input: string, reply: string)
    requires Sendable(input) && !chat.isLoading
    modifies chat
    ensures chat.messages == old(chat.messages) + [Message(input, User), Message(reply, Ai)]
    ensures chat.inputMessage == "" && !chat.isLoading && chat.error == None
  {
    chat.SetInput(input);
    var sent := chat.BeginSend();
    chat.SendSettled(Some(reply));
  }
}
