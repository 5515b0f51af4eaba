/**
 * The food gallery (app/HomeScreen.js): an ordered list of food cards and a
 * modal that adds a new card from a picked image, or shows, edits and deletes
 * an existing one. Each React state variable is a field; each setter call is
 * an assignment to it.
 */
module Home {
  import opened Wrappers

  /** Where a card's picture comes from: a bundled asset or a URI the picker or camera returned. */
  datatype ImageRef = Asset(file: string) | Picked(uri: string)

  /** The three text fields a card carries and the modal edits. */
  datatype CardText = CardText(dishName: string, calories: string, ingredients: string)

  datatype FoodCard = FoodCard(source: ImageRef, dishName: string, calories: string, ingredients: string)
  {
    function Text(): CardText {
      CardText(dishName, calories, ingredients)
    }
  }

  /** The five demo cards the gallery starts with. */
  const InitialFoodImages: seq<FoodCard> := [
    FoodCard(Asset("food1.jpg"), "Butter Chicken with Naan", "750", "Butter Chicken, Butter Sauce, Naan Bread"),
    FoodCard(Asset("food2.jpg"), "Hakka Noodles", "400", "Noodles, Chili Sauce, Egg, Tofu, Parsley"),
    FoodCard(Asset("food3.jpg"), "Sushi", "540", "Cucumber, Crab Legs, Seaweed"),
    FoodCard(Asset("food4.jpg"), "Pizza", "980", "Dough, Cheese, Mushroom, Pepper, Olives"),
    FoodCard(Asset("food5.jpg"), "Burger and Chips", "610", "Beef, Onion, Cheese, Tomato, Lettuce, Potato Chips")
  ]

  /** The text a freshly picked or photographed image is offered with. */
  const NewImageDefaults := CardText("Fish and Chips", "650", "Fish, Fries, Lemon, Tartar Sauce")

  const EmptyText := CardText("", "", "")

  /** The list after saving `t` into card `k`: only that card's three text fields change. */
  function WithText(cards: seq<FoodCard>, k: nat, t: CardText): (r: seq<FoodCard>)
    requires k < |cards|
    ensures |r| == |cards|
    ensures r[k].source == cards[k].source && r[k].Text() == t
    ensures forall i :: 0 <= i < |r| && i != k ==> r[i] == cards[i]
  {
    cards[k := cards[k].(dishName := t.dishName, calories := t.calories, ingredients := t.ingredients)]
  }

  /** The list after `splice(k, 1)`: card `k` is gone and the later cards move down one place. */
  function RemoveAt(cards: seq<FoodCard>, k: nat): (r: seq<FoodCard>)
    requires k < |cards|
    ensures |r| == |cards| - 1
    ensures forall i :: 0 <= i < k ==> r[i] == cards[i]
    ensures forall i :: k <= i < |r| ==> r[i] == cards[i + 1]
  {
    cards[..k] + cards[k + 1..]
  }

  /** Saving a card's own text back into it leaves the list as it was. */
  lemma WithOwnTextIsIdentity(cards: seq<FoodCard>, k: nat)
    requires k < |cards|
    ensures WithText(cards, k, cards[k].Text()) == cards
  {
    var r := WithText(cards, k, cards[k].Text());
    assert r[k] == cards[k];
    assert forall i :: 0 <= i < |r| ==> r[i] == cards[i];
  }

  /** Removing card `k` loses that card and no other. */
  lemma RemoveAtLosesOnlyThatCard(cards: seq<FoodCard>, k: nat)
    requires k < |cards|
    ensures multiset(RemoveAt(cards, k)) + multiset{cards[k]} == multiset(cards)
  {
    assert cards == cards[..k] + [cards[k]] + cards[k + 1..];
  }

  class HomeScreen {
    var foodImages: seq<FoodCard>
    var activeIndex: int
    var modalVisible: bool
    var currentDishName: string
    var currentCalories: string
    var currentIngredients: string
    var currentImageIndex: Option<int>
    var tempImage: Option<ImageRef>
    var isNewImage: bool
    var isEditing: bool
    var backupDishName: string
    var backupCalories: string
    var backupIngredients: string

    /** The text the modal shows and edits. */
    function Draft(): CardText
      reads this
    {
      CardText(currentDishName, currentCalories, currentIngredients)
    }

    /** The text "Cancel Edit" goes back to. */
    function Backup(): CardText
      reads this
    {
      CardText(backupDishName, backupCalories, backupIngredients)
    }

    /** The modal holds a picked image that Save would add as a new card. */
    predicate AddingNewCard()
      reads this
    {
      tempImage.Some? && isNewImage
    }

    /** The modal shows existing card `currentImageIndex`. */
    predicate ShowingCard()
      reads this
    {
      currentImageIndex.Some? && 0 <= currentImageIndex.value < |foodImages|
    }

    /** What resetModalState leaves behind; the backup text is not part of it. */
    predicate ModalReset()
      reads this
    {
      !modalVisible && tempImage.None? && !isNewImage && currentImageIndex.None? && !isEditing
      && Draft() == EmptyText
    }

    /**
     * The invariant every handler keeps: a target index always names an
     * existing card and never coexists with new-image mode, and a closed
     * modal carries no session.
     */
    ghost predicate Valid()
      reads this
    {
      (currentImageIndex.Some? ==> ShowingCard() && tempImage.None? && !isNewImage)
      && (!modalVisible ==> ModalReset())
    }

    constructor ()
      ensures Valid() && ModalReset()
      ensures foodImages == InitialFoodImages && activeIndex == 0 && Backup() == EmptyText
    {
      foodImages := InitialFoodImages;
      activeIndex := 0;
      modalVisible := false;
      currentDishName, currentCalories, currentIngredients := "", "", "";
      currentImageIndex := None;
      tempImage := None;
      isNewImage, isEditing := false, false;
      backupDishName, backupCalories, backupIngredients := "", "", "";
    }

    /** openModalForNewImage: open the modal in new-image mode with the given text as draft and backup. */
    method OpenModalForNewImage(defaultDishName: string, defaultCalories: string, defaultIngredients: string)
      modifies this`currentDishName, this`currentCalories, this`currentIngredients,
               this`backupDishName, this`backupCalories, this`backupIngredients,
               this`currentImageIndex, this`isNewImage, this`isEditing, this`modalVisible
      ensures Valid()
      ensures Draft() == CardText(defaultDishName, defaultCalories, defaultIngredients) && Backup() == Draft()
      ensures currentImageIndex.None? && isNewImage && !isEditing && modalVisible
    {
      currentDishName, currentCalories, currentIngredients := defaultDishName, defaultCalories, defaultIngredients;
      backupDishName, backupCalories, backupIngredients := defaultDishName, defaultCalories, defaultIngredients;
      currentImageIndex := None;
      isNewImage := true;
      isEditing := false;
      modalVisible := true;
    }

    /**
     * pickImage and takePhoto once the device has answered: `None` when
     * permission was refused or the dialog cancelled, which changes nothing;
     * otherwise the image is held and the modal opens with the default text.
     */
    method ImageChosen(picked: Option<string>)
      requires Valid()
      modifies this`currentDishName, this`currentCalories, this`currentIngredients,
               this`backupDishName, this`backupCalories, this`backupIngredients,
               this`currentImageIndex, this`isNewImage, this`isEditing, this`modalVisible, this`tempImage
      ensures Valid()
      ensures picked.None? ==> unchanged(this)
      ensures picked.Some? ==>
                tempImage == Some(Picked(picked.value)) && AddingNewCard() && currentImageIndex.None?
                && Draft() == NewImageDefaults && Backup() == NewImageDefaults && !isEditing && modalVisible
    {
      if picked.None? {
        return;
      }
      tempImage := Some(Picked(picked.value));
      OpenModalForNewImage(NewImageDefaults.dishName, NewImageDefaults.calories, NewImageDefaults.ingredients);
    }

    /** openEditModal: show card `index` with its text as draft and backup; no card there, no change. */
    method OpenEditModal(index: int)
      requires Valid()
      modifies this`currentDishName, this`currentCalories, this`currentIngredients,
               this`backupDishName, this`backupCalories, this`backupIngredients,
               this`currentImageIndex, this`isNewImage, this`isEditing, this`modalVisible, this`tempImage
      ensures Valid()
      ensures !(0 <= index < |foodImages|) ==> unchanged(this)
      ensures 0 <= index < |foodImages| ==>
                Draft() == foodImages[index].Text() && Backup() == Draft()
                && currentImageIndex == Some(index) && tempImage.None? && !isNewImage && !isEditing && modalVisible
    {
      if !(0 <= index < |foodImages|) {
        return;
      }
      currentImageIndex := Some(index);
      var card := foodImages[index];
      currentDishName, currentCalories, currentIngredients := card.dishName, card.calories, card.ingredients;
      backupDishName, backupCalories, backupIngredients := card.dishName, card.calories, card.ingredients;
      tempImage := None;
      isNewImage := false;
      isEditing := false;
      modalVisible := true;
    }

    /** The Edit button, shown in the open modal: the text fields become editable. */
    method BeginEdit()
      requires Valid() && modalVisible
      modifies this`isEditing
      ensures Valid() && isEditing
    {
      isEditing := true;
    }

    /** Typing into the Dish Name field, which accepts input only while editing. */
    method ChangeDishName(text: string)
      requires Valid() && modalVisible && isEditing
      modifies this`currentDishName
      ensures Valid() && Draft() == old(Draft()).(dishName := text)
    {
      currentDishName := text;
    }

    /** Typing into the Calories field, which accepts input only while editing. */
    method ChangeCalories(text: string)
      requires Valid() && modalVisible && isEditing
      modifies this`currentCalories
      ensures Valid() && Draft() == old(Draft()).(calories := text)
    {
      currentCalories := text;
    }

    /** Typing into the Ingredients field, which accepts input only while editing. */
    method ChangeIngredients(text: string)
      requires Valid() && modalVisible && isEditing
      modifies this`currentIngredients
      ensures Valid() && Draft() == old(Draft()).(ingredients := text)
    {
      currentIngredients := text;
    }

    /** cancelEdit, the Cancel Edit button shown while editing: the draft goes back to the backup. */
    method CancelEdit()
      requires Valid() && modalVisible && isEditing
      modifies this`currentDishName, this`currentCalories, this`currentIngredients, this`isEditing
      ensures Valid() && Draft() == Backup() && !isEditing
    {
      currentDishName, currentCalories, currentIngredients := backupDishName, backupCalories, backupIngredients;
      isEditing := false;
    }

    /** resetModalState: end the session and close the modal; list, active index and backup stay. */
    method ResetModalState()
      modifies this`tempImage, this`isNewImage, this`currentImageIndex, this`isEditing,
               this`currentDishName, this`currentCalories, this`currentIngredients, this`modalVisible
      ensures Valid() && ModalReset() && Backup() == old(Backup())
    {
      tempImage := None;
      isNewImage := false;
      currentImageIndex := None;
      isEditing := false;
      currentDishName, currentCalories, currentIngredients := "", "", "";
      modalVisible := false;
    }

    /**
     * saveModal: in new-image mode append one card made of the held image and
     * the draft; else, with a target card, write the draft into its text
     * fields, keeping its image; then reset the modal.
     */
    method SaveModal()
      requires Valid()
      modifies this`foodImages, this`tempImage, this`isNewImage, this`currentImageIndex, this`isEditing,
               this`currentDishName, this`currentCalories, this`currentIngredients, this`modalVisible
      ensures Valid() && ModalReset() && Backup() == old(Backup()) && activeIndex == old(activeIndex)
      ensures old(AddingNewCard()) ==>
                |foodImages| == |old(foodImages)| + 1 && foodImages[..|old(foodImages)|] == old(foodImages)
                && foodImages[|old(foodImages)|] == FoodCard(old(tempImage.value), old(currentDishName),
                                                             old(currentCalories), old(currentIngredients))
      ensures old(!AddingNewCard() && currentImageIndex.Some?) ==>
                foodImages == WithText(old(foodImages), old(currentImageIndex.value), old(Draft()))
      ensures old(!AddingNewCard() && currentImageIndex.None?) ==> foodImages == old(foodImages)
    {
      if tempImage.Some? && isNewImage {
        var newFood := FoodCard(tempImage.value, currentDishName, currentCalories, currentIngredients);
        foodImages := foodImages + [newFood];
      } else if currentImageIndex.Some? {
        foodImages := WithText(foodImages, currentImageIndex.value, Draft());
      }
      ResetModalState();
    }

    /**
     * discardModal: in new-image mode only close; else, with a target card
     * that exists, remove it and move the active index to the card now in
     * its place, or to the new last card, or to -1 if none are left; then
     * reset the modal.
     */
    method DiscardModal()
      requires Valid()
      modifies this`foodImages, this`activeIndex, this`tempImage, this`isNewImage, this`currentImageIndex,
               this`isEditing, this`currentDishName, this`currentCalories, this`currentIngredients,
               this`modalVisible
      ensures Valid() && ModalReset() && Backup() == old(Backup())
      ensures old(!AddingNewCard() && ShowingCard()) ==>
                foodImages == RemoveAt(old(foodImages), old(currentImageIndex.value))
                && activeIndex == (if old(currentImageIndex.value) < |foodImages| then old(currentImageIndex.value)
                                   else |foodImages| - 1)
      ensures old(AddingNewCard() || !ShowingCard()) ==>
                foodImages == old(foodImages) && activeIndex == old(activeIndex)
    {
      if isNewImage && tempImage.Some? {
      } else if currentImageIndex.Some? && 0 <= currentImageIndex.value < |foodImages| {
        var k := currentImageIndex.value;
        var updated := RemoveAt(foodImages, k);
        foodImages := updated;
        activeIndex := if |updated| - 1 < k then |updated| - 1 else k;
      }
      ResetModalState();
    }
  }

  /** Edit a card, think better of it with Cancel Edit, then Save: the list is as it was. */
  method CancelledEditSavesNothing(h: HomeScreen, i: nat, edit: CardText)
    requires h.Valid() && i < |h.foodImages|
    modifies h
    ensures h.Valid() && h.ModalReset() && h.foodImages == old(h.foodImages)
  {
    h.OpenEditModal(i);
    h.BeginEdit();
    h.ChangeDishName(edit.dishName);
    h.ChangeCalories(edit.calories);
    h.ChangeIngredients(edit.ingredients);
    h.CancelEdit();
    h.SaveModal();
    WithOwnTextIsIdentity(old(h.foodImages), i);
  }

  /** Pick an image and Save: exactly one card, holding the image and the default text, is added at the end. */
  method PickedImageSaved(h: HomeScreen, uri: string)
    requires h.Valid()
    modifies h
    ensures h.Valid() && h.ModalReset()
    ensures h.foodImages == old(h.foodImages) + [FoodCard(Picked(uri), NewImageDefaults.dishName,
                                                          NewImageDefaults.calories, NewImageDefaults.ingredients)]
  {
    h.ImageChosen(Some(uri));
    h.SaveModal();
  }

  /** Pick an image and Discard: the list and the active index are unchanged. */
  method PickedImageDiscarded(h: HomeScreen, uri: string)
    requires h.Valid()
    modifies h
    ensures h.Valid() && h.ModalReset()
    ensures h.foodImages == old(h.foodImages) && h.activeIndex == old(h.activeIndex)
  {
    h.ImageChosen(Some(uri));
    h.DiscardModal();
  }

  /** Open card 2 of the five demo cards and Discard: four remain, the old card 3 is now card 2 and active. */
  method DiscardThirdDemoCard() returns (cards: seq<FoodCard>, active: int)
    ensures |cards| == 4 && cards[2] == InitialFoodImages[3] && cards[..2] == InitialFoodImages[..2]
    ensures active == 2
  {
    var h := new HomeScreen();
    h.OpenEditModal(2);
    h.DiscardModal();
    cards, active := h.foodImages, h.activeIndex;
  }
}
