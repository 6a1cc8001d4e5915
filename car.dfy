/**
 * The factory `Car` of closures.js: four constant fields and two closures,
 * `carModel` and `carDetails`, each showing its own pair of them.
 */
module Cars {

  /** The state created by one call of `Car()`. */
  class Car {
    const model: string
    const name: string
    const color: string
    const manufacturedAt: string

    constructor ()
      ensures model == "Model 1" && name == "Toyota"
      ensures color == "Black" && manufacturedAt == "24/2025"
    {
      model := "Model 1";
      name := "Toyota";
      color := "Black";
      manufacturedAt := "24/2025";
    }

    /** `carModel()`: shows the model, then the manufacture date. */
    function CarModel(): (shown: (string, string))
      ensures shown == (model, manufacturedAt)
    {
      (model, manufacturedAt)
    }

    /** `carDetails()`: shows the name, then the colour. */
    function CarDetails(): (shown: (string, string))
      ensures shown == (name, color)
    {
      (name, color)
    }
  }

  /**
   * The two views split the four fields between them: together they show
   * each field exactly once.
   */
  lemma ViewsPartitionFields(c: Car)
    ensures multiset{c.CarModel().0, c.CarModel().1, c.CarDetails().0, c.CarDetails().1}
         == multiset{c.model, c.name, c.color, c.manufacturedAt}
  {
  }

  /** The trace `Car()`, `carModel()`, `carDetails()`. */
  method CarInstanceTrace() returns (modelView: (string, string), detailsView: (string, string))
    ensures modelView == ("Model 1", "24/2025")
    ensures detailsView == ("Toyota", "Black")
  {
    var carInstance := new Car();
    modelView := carInstance.CarModel();
    detailsView := carInstance.CarDetails();
  }
}
