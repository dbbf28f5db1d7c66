/**
 * The search box of the navigator.
 *
 * The component mirrors the input element in `inputValue`, pushes the typed
 * phrase to the store through `setSearchPhrase` after a debounce, flushes it
 * at once on blur, focus and submit, and renders nothing while its internal
 * `active` flag is false. The 250 ms debounce is a single pending slot that
 * the environment fires with `FireDebounced`; the callbacks are recorded in
 * call logs.
 */
module NavigatorSearch {
  import opened Options

  /** The container's animation class: in while the active prop is true, out otherwise. */
  datatype Animation = In | Out

  /** What `render` shows. */
  datatype SearchView = SearchView(inputValue: string, animation: Animation)

  class Search {
    /** The `active` prop. */
    var activeProp: bool

    // state
    /** Whether the component renders anything. */
    var active: bool
    /** The value the controlled input shows. */
    var inputValue: string

    // the input element, mounted while `active` holds
    var elementValue: string
    var selectionStart: nat
    var selectionEnd: nat

    /** The debounce slot: a call of `updateQuery` is scheduled. */
    var pending: bool

    // call logs of the callbacks, oldest first
    var phrases: seq<string>
    var submits: nat
    var toggles: seq<bool>

    /** While mounted, the controlled input shows the state's value. */
    predicate Valid()
      reads this
    {
      active ==> elementValue == inputValue
    }

    /** The constructor: inactive and empty, whatever the active prop is. */
    constructor (activeProp: bool)
      ensures Valid()
      ensures this.activeProp == activeProp && !active && inputValue == ""
      ensures !pending && phrases == [] && submits == 0 && toggles == []
    {
      this.activeProp := activeProp;
      active := false;
      inputValue := "";
      elementValue := "";
      selectionStart, selectionEnd := 0, 0;
      pending := false;
      phrases, submits, toggles := [], 0, [];
    }

    /**
     * `componentWillReceiveProps`: only a change of the active prop to true
     * activates the component, seeded with the query parameter `s` (`query`,
     * `None` when it is absent). The re-render puts that value in the element.
     */
    method ReceiveProps(nextActive: bool, query: Option<string>)
      requires Valid()
      modifies this`activeProp, this`active, this`inputValue, this`elementValue
      ensures Valid()
      ensures activeProp == nextActive
      ensures old(activeProp) != nextActive && nextActive ==>
        active && inputValue == query.GetOr("") && elementValue == inputValue
      ensures !(old(activeProp) != nextActive && nextActive) ==>
        active == old(active) && inputValue == old(inputValue) && elementValue == old(elementValue)
    {
      if activeProp != nextActive && nextActive {
        active := true;
        inputValue := query.GetOr("");
        elementValue := inputValue;
      }
      activeProp := nextActive;
    }

    /** `updateQuery`: commits what the element holds at the moment of the call. */
    method UpdateQuery()
      requires Valid() && active
      modifies this`phrases
      ensures Valid()
      ensures phrases == old(phrases) + [inputValue]
    {
      phrases := phrases + [elementValue];
    }

    /**
     * A keystroke: the element takes the typed text, `handleInput` copies it
     * into the state and (re)arms the debounce slot.
     */
    method HandleInput(typed: string)
      requires Valid() && active
      modifies this`elementValue, this`inputValue, this`pending
      ensures Valid()
      ensures inputValue == typed && elementValue == typed && pending
    {
      elementValue := typed;
      inputValue := elementValue;
      pending := true;
    }

    /**
     * The debounce timer fires: `updateQuery` reads the element as it is NOW.
     * Once the component is inactive the element is unmounted and its ref is
     * null; reading its value throws, so nothing is committed.
     */
    method FireDebounced()
      requires Valid() && pending
      modifies this`pending, this`phrases
      ensures Valid()
      ensures !pending
      ensures phrases == old(phrases) + if active then [inputValue] else []
    {
      pending := false;
      if active {
        UpdateQuery();
      }
    }

    /** `handleBlur`: commits at once and leaves the pending commit in place. */
    method HandleBlur()
      requires Valid() && active
      modifies this`phrases
      ensures Valid()
      ensures phrases == old(phrases) + [inputValue]
      ensures pending == old(pending)
    {
      UpdateQuery();
    }

    /** `handleFocus`: commits at once and puts the caret at the end of the value. */
    method HandleFocus()
      requires Valid() && active
      modifies this`phrases, this`selectionStart, this`selectionEnd
      ensures Valid()
      ensures phrases == old(phrases) + [inputValue]
      ensures selectionStart == |inputValue| && selectionEnd == |inputValue|
      ensures pending == old(pending)
    {
      UpdateQuery();
      selectionStart := |inputValue|;
      selectionEnd := |inputValue|;
    }

    /** `handleOverlayClick`: asks the store to close the search, nothing else. */
    method HandleOverlayClick()
      requires Valid() && active
      modifies this`toggles
      ensures Valid()
      ensures toggles == old(toggles) + [false]
    {
      toggles := toggles + [false];
    }

    /** `handleSubmit`: ignored while the element is empty, otherwise commit and submit. */
    method HandleSubmit()
      requires Valid() && active
      modifies this`phrases, this`submits
      ensures Valid()
      ensures inputValue == "" ==> phrases == old(phrases) && submits == old(submits)
      ensures inputValue != "" ==> phrases == old(phrases) + [inputValue] && submits == old(submits) + 1
      ensures pending == old(pending)
    {
      if elementValue == "" {
        return;
      }
      UpdateQuery();
      submits := submits + 1;
    }

    /** `handleAnimationEnd`: the internal flag follows the active prop. */
    method HandleAnimationEnd()
      requires Valid() && active
      modifies this`active
      ensures Valid()
      ensures active == activeProp
    {
      active := activeProp;
    }

    /** `render`: nothing while inactive, whatever the active prop says. */
    function Render(): (view: Option<SearchView>)
      reads this
      ensures view.None? <==> !active
      ensures view.Some? ==> view.value.inputValue == inputValue
      ensures view.Some? ==> (view.value.animation == In <==> activeProp)
    {
      if !active then None
      else Some(SearchView(inputValue, if activeProp then In else Out))
    }
  }
}
