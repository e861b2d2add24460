/**
 * What the generated records of lib/data_generator.py mean for the models
 * of lib/orm_classes.py they are saved through: each generated value is
 * accepted by `validate_field` for the column it is stored in.
 *
 * The work time of a barista also shows the effect of the bounds the
 * docstring parser drops: Barista declares work_time with max_value=160,
 * the generator draws up to 272 hours, and the parsed field accepts it.
 */
module GeneratedData {
  import opened Wrappers
  import opened Values
  import opened Text
  import opened OrmFields
  import opened OrmSchemas
  import opened Generator

  /** A generated full name fits the name column of Guest and of Barista: three words, at most 255 characters. */
  lemma FullNameFitsSchemas(surname: Stream, name: Stream, midname: Stream)
    ensures ValidateField("name", VStr(FullName(surname, name, midname)), GuestColumns[1].1) == None
    ensures ValidateField("name", VStr(FullName(surname, name, midname)), BaristaColumns[1].1) == None
  {
    FullNameShape(surname, name, midname);
    CharAcceptsExactly("name", FullName(surname, name, midname), 255, false, map["words_count" := VInt(3)]);
  }

  /** A generated phone number fits Guest's contact_number column of 16 characters exactly. */
  lemma PhoneFitsSchema(s: Stream)
    ensures ValidateField("contact_number", VStr(Phone(s)), GuestColumns[2].1) == None
  {
    PhoneShape(s);
    CharAcceptsExactly("contact_number", Phone(s), 16, false, map[]);
  }

  /** A generated date fits the order_date column of Orders, 10 characters. */
  lemma DateFitsSchema(s: Stream)
    ensures ValidateField("order_date", VStr(Date(s)), OrdersColumns[1].1) == None
  {
    DateShape(s);
    CharAcceptsExactly("order_date", Date(s), 10, false, map[]);
  }

  /** A generated menu name fits Menu's name column of 100 characters. */
  lemma MenuNameFitsSchema(s: Stream)
    ensures ValidateField("name", VStr(Generator.MenuName(s)), MenuColumns[1].1) == None
  {
    CharAcceptsExactly("name", Generator.MenuName(s), 100, false, map[]);
  }

  /**
   * Barista declares work_time with max_value=160, but the parsed column
   * carries no bounds, so a generated 168 hours is saved without complaint.
   */
  lemma WorkTimeAboveDeclaredMaximum()
    ensures WorkTime(11) == 168 > 160
    ensures ValidateField("work_time", VInt(WorkTime(11)), BaristaColumns[2].1) == None
  {
    UnboundedNumericAcceptsAll("work_time", VInt(168), BaristaColumns[2].1);
  }
}
