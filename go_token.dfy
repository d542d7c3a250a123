/**
 * The go/token operator tokens that SSA instructions and go/ast binary
 * expressions carry.
 */
module GoToken {

  datatype Token =
    | ADD | SUB | MUL | QUO | REM             // +  -  *  /  %
    | AND | OR | XOR | SHL | SHR | AND_NOT    // &  |  ^  <<  >>  &^
    | LAND | LOR | ARROW                      // &&  ||  <-
    | EQL | NEQ | LSS | GTR | LEQ | GEQ       // ==  !=  <  >  <=  >=
    | NOT                                     // !
    | ASSIGN | DEFINE                         // =  :=
}
